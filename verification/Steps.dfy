/** What one line of an assembled frame does, instruction by instruction. */
module Steps {
  import opened Values
  import opened Assembly
  import opened Machine
  import opened Assembler
  import opened Trace

  /** The run is about to execute line j of the lines `code` that stand at k, and it is i. */
  ghost predicate At(x: Ctx, n: nat, c: Vm, k: nat, code: seq<Line>, j: nat, i: Instr<Label>) {
    Here(x, n, c, k + j) && HasCode(x.p, k, code) && j < |code| && code[j] == Code(i)
  }

  lemma DoLine(x: Ctx, n: nat, c: Vm, k: nat, code: seq<Line>, j: nat, i: Instr<Label>) returns (d: Vm)
    requires At(x, n, c, k, code, j, i) && (Pops(i, c) == 0 || Floor(c) + Pops(i, c) <= |c.stack|)
    ensures Reached(x, n + 1, d)
    ensures d == ExecInstr(x.w, x.size, Resolve(x.p, i), c.(ip := Off(x.p, k + j + 1)))
  {
    hide Sound, Reached, HasCode, Off, Addr, ExecInstr, Resolve;
    LineAt(x.p, k, code, j);
    d := Perform(x, n, c, k + j);
  }

  lemma DoPop(x: Ctx, n: nat, c: Vm, k: nat, code: seq<Line>, j: nat) returns (d: Vm)
    requires At(x, n, c, k, code, j, PopTop) && Floor(c) < |c.stack|
    ensures Reached(x, n + 1, d)
    ensures d == c.(ip := Off(x.p, k + j + 1), stack := c.stack[..|c.stack| - 1])
  {
    hide Reached, Sound, HasCode, Off, Addr;
    d := DoLine(x, n, c, k, code, j, PopTop);
  }

  lemma DoDup(x: Ctx, n: nat, c: Vm, k: nat, code: seq<Line>, j: nat) returns (d: Vm)
    requires At(x, n, c, k, code, j, DupTop) && 0 < |c.stack| < x.size
    ensures Reached(x, n + 1, d)
    ensures d == c.(ip := Off(x.p, k + j + 1), stack := c.stack + [Top(c)])
  {
    hide Reached, Sound, HasCode, Off, Addr;
    d := DoLine(x, n, c, k, code, j, DupTop);
  }

  lemma DoJump(x: Ctx, n: nat, c: Vm, k: nat, code: seq<Line>, j: nat, to: Label) returns (d: Vm)
    requires At(x, n, c, k, code, j, JumpAbsolute(to)) || At(x, n, c, k, code, j, JumpForward(to))
    ensures Reached(x, n + 1, d) && d == c.(ip := Addr(x.p, to))
  {
    hide Reached, Sound, HasCode, Off, Addr;
    d := DoLine(x, n, c, k, code, j, code[j].i);
  }

  /** The conditional jumps leave the value they test. */
  lemma DoTest(x: Ctx, n: nat, c: Vm, k: nat, code: seq<Line>, j: nat, i: Instr<Label>) returns (d: Vm)
    requires At(x, n, c, k, code, j, i) && (i.JumpIfFalse? || i.JumpIfTrue?) && c.stack != []
    ensures Reached(x, n + 1, d)
    ensures d == c.(ip := if Truth(x.w, Top(c)) == i.JumpIfTrue? then Addr(x.p, i.to) else Off(x.p, k + j + 1))
  {
    hide Reached, Sound, HasCode, Off, Addr;
    d := DoLine(x, n, c, k, code, j, i);
  }

  lemma DoFirstTest(x: Ctx, n: nat, c: Vm, k: nat, code: seq<Line>, j: nat, to: Label) returns (d: Vm)
    requires At(x, n, c, k, code, j, JumpIfFirstFalse(to)) && c.stack != [] && c.blocks != []
    ensures Reached(x, n + 1, d)
    ensures var last := |c.blocks| - 1;
            d == c.(ip := if !Truth(x.w, Top(c)) && !c.blocks[last].visited then Addr(x.p, to) else Off(x.p, k + j + 1),
                    blocks := c.blocks[last := c.blocks[last].(visited := true)])
  {
    hide Reached, Sound, HasCode, Off, Addr;
    d := DoLine(x, n, c, k, code, j, JumpIfFirstFalse(to));
  }

  lemma DoLoad(x: Ctx, n: nat, c: Vm, k: nat, code: seq<Line>, j: nat, i: Instr<Label>) returns (d: Vm)
    requires At(x, n, c, k, code, j, i) && (i.LoadConst? || i.LoadId?) && |c.stack| < x.size
    ensures Reached(x, n + 1, d)
    ensures var r := if i.LoadConst? then Ok(i.v) else Lookup(x.w, c.vars, i.id);
            d == if r.Ok? then c.(ip := Off(x.p, k + j + 1), stack := c.stack + [r.v])
                 else Raised(c.(ip := Off(x.p, k + j + 1)), Lookup(x.w, c.vars, i.id).x)
  {
    hide Reached, Sound, HasCode, Off, Addr;
    d := DoLine(x, n, c, k, code, j, i);
  }

  lemma DoStore(x: Ctx, n: nat, c: Vm, k: nat, code: seq<Line>, j: nat, id: Id) returns (d: Vm)
    requires At(x, n, c, k, code, j, StoreId(id)) && Floor(c) < |c.stack|
    ensures Reached(x, n + 1, d)
    ensures d == c.(ip := Off(x.p, k + j + 1), stack := c.stack[..|c.stack| - 1], vars := c.vars[id := Top(c)])
  {
    hide Reached, Sound, HasCode, Off, Addr;
    d := DoLine(x, n, c, k, code, j, StoreId(id));
  }

  /** What the two operands on the stack give: the right operand of an operator is on top, and so is
      the left operand of a comparison. */
  function TwoResult(w: World, i: Instr<Label>, below: Value, top: Value): Result
    requires i.Operate? || i.Compare? || i.CompareEx?
  {
    if i.Operate? then w.operate(i.op, below, top)
    else if i.Compare? then w.compare(i.cmp, top, below)
    else Ok(Bool(w.isInstance(below, top)))
  }

  lemma DoTwo(x: Ctx, n: nat, c: Vm, k: nat, code: seq<Line>, j: nat, i: Instr<Label>) returns (d: Vm)
    requires At(x, n, c, k, code, j, i) && (i.Operate? || i.Compare? || i.CompareEx?) && Floor(c) + 2 <= |c.stack|
    ensures Reached(x, n + 1, d)
    ensures d == PushResult(c.(ip := Off(x.p, k + j + 1), stack := c.stack[..|c.stack| - 2]),
                            TwoResult(x.w, i, c.stack[|c.stack| - 2], c.stack[|c.stack| - 1]), x.size)
  {
    hide Reached, Sound, HasCode, Off, Addr;
    d := DoLine(x, n, c, k, code, j, i);
  }

  lemma DoPack(x: Ctx, n: nat, c: Vm, k: nat, code: seq<Line>, j: nat, vs: seq<Value>) returns (d: Vm)
    requires At(x, n, c, k, code, j, PackTuple(|vs|)) && |vs| <= |c.stack| && c.stack[|c.stack| - |vs|..] == vs
    requires Floor(c) <= |c.stack| - |vs| < x.size
    ensures Reached(x, n + 1, d)
    ensures d == c.(ip := Off(x.p, k + j + 1), stack := c.stack[..|c.stack| - |vs|] + [Tuple(vs)])
  {
    hide Reached, Sound, HasCode, Off, Addr;
    d := DoLine(x, n, c, k, code, j, PackTuple(|vs|));
  }

  lemma DoUnpack(x: Ctx, n: nat, c: Vm, k: nat, code: seq<Line>, j: nat, i: nat) returns (d: Vm)
    requires At(x, n, c, k, code, j, UnpackTuple(i)) && Floor(c) < |c.stack| && |c.stack| - 1 + i <= x.size
    ensures Reached(x, n + 1, d)
    ensures var c1 := c.(ip := Off(x.p, k + j + 1), stack := c.stack[..|c.stack| - 1]);
            d == if Top(c).Tuple? then c1.(stack := c1.stack + Padded(Top(c).items, i))
                 else Raised(c1, x.w.notTuple)
  {
    hide Reached, Sound, HasCode, Off, Addr;
    d := DoLine(x, n, c, k, code, j, UnpackTuple(i));
    if Top(c).Tuple? {
      PushAllFits(c.(ip := Off(x.p, k + j + 1), stack := c.stack[..|c.stack| - 1]),
                  Padded(Top(c).items, i), x.size);
    }
  }

  lemma DoSetupLoop(x: Ctx, n: nat, c: Vm, k: nat, code: seq<Line>, j: nat, i: Instr<Label>) returns (d: Vm)
    requires At(x, n, c, k, code, j, i) && (i.SetupLoop? || i.SetupElseLoop?) && |c.blocks| < BLOCK_MAX_DEPTH
    ensures Reached(x, n + 1, d)
    ensures d == c.(ip := Off(x.p, k + j + 1),
                    blocks := c.blocks + [LoopBlock(Addr(x.p, i.end), if i.SetupElseLoop? then Addr(x.p, i.orElse) else 0,
                                                    |c.stack|, false)])
  {
    hide Reached, Sound, HasCode, Off, Addr;
    d := DoLine(x, n, c, k, code, j, i);
  }

  lemma DoSetupExcept(x: Ctx, n: nat, c: Vm, k: nat, code: seq<Line>, j: nat, i: Instr<Label>) returns (d: Vm)
    requires At(x, n, c, k, code, j, i) && i.SetupExcept? && |c.blocks| < BLOCK_MAX_DEPTH && |c.stack| < x.size
    ensures Reached(x, n + 1, d)
    ensures d == c.(ip := Off(x.p, k + j + 1), stack := c.stack + [Num(REASON_FINALLY)],
                    blocks := c.blocks + [ExceptBlock(Addr(x.p, i.onCatch), Addr(x.p, i.onFinally), Addr(x.p, i.endFinally),
                                                      |c.stack|, false)])
  {
    hide Reached, Sound, HasCode, Off, Addr;
    d := DoLine(x, n, c, k, code, j, i);
  }

  lemma DoPopBlock(x: Ctx, n: nat, c: Vm, k: nat, code: seq<Line>, j: nat) returns (d: Vm)
    requires At(x, n, c, k, code, j, PopBlock) && c.blocks != []
    ensures Reached(x, n + 1, d)
    ensures d == c.(ip := Off(x.p, k + j + 1), blocks := c.blocks[..|c.blocks| - 1])
  {
    hide Reached, Sound, HasCode, Off, Addr;
    d := DoLine(x, n, c, k, code, j, PopBlock);
  }

  /** A throw or a return takes its value and gives a reason to unwind. */
  lemma DoLast(x: Ctx, n: nat, c: Vm, k: nat, code: seq<Line>, j: nat, i: Instr<Label>) returns (d: Vm)
    requires At(x, n, c, k, code, j, i) && (i.Throw? || i.Return?) && Floor(c) < |c.stack|
    ensures Reached(x, n + 1, d)
    ensures c.ip < d.ip == Off(x.p, k + j + 1)
    ensures var v := Top(c);
            var c1 := c.(ip := d.ip, stack := c.stack[..|c.stack| - 1]);
            d == if i.Return? then c1.(ret := Some(v), reason := REASON_RETURN)
                 else Raised(c1, if v.Num? || !x.w.throwable(v) then x.w.notThrowable else v)
  {
    LineAt(x.p, k, code, j);
    d := DoLine(x, n, c, k, code, j, i);
  }

  lemma DoEndFinally(x: Ctx, n: nat, c: Vm, k: nat, code: seq<Line>, j: nat) returns (d: Vm)
    requires At(x, n, c, k, code, j, EndFinally) && c.stack != [] && Floor(c) + Pops(Instr<Label>.EndFinally, c) <= |c.stack|
    ensures Reached(x, n + 1, d)
    ensures c.ip < Off(x.p, k + j + 1) && d == EndFinallyStep(x.w, c.(ip := Off(x.p, k + j + 1)))
  {
    LineAt(x.p, k, code, j);
    d := DoLine(x, n, c, k, code, j, EndFinally);
  }
}
