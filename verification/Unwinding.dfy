/** Block unwinding on its own: exactly when it ends, and where an exception comes out. */
module Unwinding {
  import opened Values
  import opened Assembly
  import opened Machine

  /** The progress table: a pass leaves the loop of unwind_blocks or pops a block exactly for the listed
      pairs of a reason and a block type.  For every other pair it cuts the operand stack back to the
      block's depth, and any further pass changes nothing at all. */
  lemma ProgressTable(c: Vm, size: nat)
    requires Busy(c)
    ensures Progresses(c) <==> !Busy(UnwindPass(c, size)) || |UnwindPass(c, size).blocks| < |c.blocks|
    ensures !Progresses(c) ==> Stuck(UnwindPass(c, size), size) && UnwindPass(c, size) == c.(stack := Trim(c.stack, Floor(c)))
  {
    hide PushAll;
    if c.ret.Some? { PushAllGrows(c, [c.ret.value, Num(REASON_RETURN)], size); }
  }

  ghost predicate Unwinds(w: World, b: Bytecode, c: Vm) {
    exists n: nat :: !Busy(Run(w, b, n, c))
  }

  /** A stuck machine is in the same state for ever. */
  lemma {:induction false} StuckForever(w: World, b: Bytecode, n: nat, c: Vm)
    requires Stuck(c, b.stackSize)
    ensures Run(w, b, n, c) == c
  {
    hide UnwindPass;
    if n > 0 { StuckForever(w, b, n - 1, c); }
  }

  /** Unwinding ends if and only if its first pass gets anywhere.  Reasons outside the table, like
      RERAISE over any block, or RETURN over a loop, spin for ever. */
  lemma {:induction false} UnwindingEnds(w: World, b: Bytecode, c: Vm)
    requires Busy(c)
    ensures Unwinds(w, b, c) <==> Progresses(c)
    decreases |c.blocks|
  {
    hide Run, UnwindPass, Progresses;
    var d := UnwindPass(c, b.stackSize);
    ProgressTable(c, b.stackSize);
    assert Step(w, b, c) == d;
    if !Progresses(c) {
      forall n: nat ensures Busy(Run(w, b, n, c)) {
        if n > 0 {
          RunMore(w, b, n, c);
          StuckForever(w, b, n - 1, d);
        } else {
          RunNone(w, b, c);
        }
      }
    } else if Busy(d) {
      Popped(c, b.stackSize);
      UnwindingEnds(w, b, d);
      var n: nat :| !Busy(Run(w, b, n, d));
      RunMore(w, b, n + 1, c);
    } else {
      RunMore(w, b, 1, c);
      RunNone(w, b, d);
    }
  }

  lemma RunMore(w: World, b: Bytecode, n: nat, c: Vm)
    requires n > 0
    ensures Run(w, b, n, c) == Run(w, b, n - 1, Step(w, b, c))
  {
  }

  lemma RunNone(w: World, b: Bytecode, c: Vm)
    ensures Run(w, b, 0, c) == c
  {
  }

  /** Only an exception pops a block and goes on, and then it gets on with the next one. */
  lemma Popped(c: Vm, size: nat)
    requires Busy(c) && Progresses(c) && Busy(UnwindPass(c, size))
    ensures Progresses(UnwindPass(c, size)) && |UnwindPass(c, size).blocks| < |c.blocks|
  {
    hide PushAll;
    if c.ret.Some? { PushAllGrows(c, [c.ret.value, Num(REASON_RETURN)], size); }
  }

  /** The state in which unwinding ends, if its first pass gets anywhere. */
  function Unwound(c: Vm, size: nat): Vm
    decreases |c.blocks|
  {
    hide UnwindPass;
    if !Busy(c) then c else
    var d := UnwindPass(c, size);
    if |d.blocks| < |c.blocks| then Unwound(d, size) else d
  }

  lemma UnwoundStep(c: Vm, size: nat)
    requires Busy(c) && Progresses(c)
    ensures var d := UnwindPass(c, size);
            && Unwound(d, size) == Unwound(c, size)
            && (Busy(d) ==> Progresses(d) && |d.blocks| < |c.blocks|)
  {
    hide UnwindPass, Progresses;
    if Busy(UnwindPass(c, size)) { Popped(c, size); }
  }

  /** The machine's run gets there. */
  lemma {:induction false} UnwoundRun(w: World, b: Bytecode, c: Vm) returns (n: nat)
    requires Busy(c) ==> Progresses(c)
    ensures Run(w, b, n, c) == Unwound(c, b.stackSize) && !Busy(Unwound(c, b.stackSize))
    decreases |c.blocks|
  {
    hide UnwindPass, Progresses, Run;
    n := 0;
    RunNone(w, b, c);
    if Busy(c) {
      UnwoundStep(c, b.stackSize);
      var d := UnwindPass(c, b.stackSize);
      if Busy(d) { n := UnwoundRun(w, b, d); }
      RunNone(w, b, d);
      RunMore(w, b, n + 1, c);
      n := n + 1;
    }
  }

  // ----- exceptions -----

  /** How many blocks are left when everything above the innermost exception block is gone. */
  function Catching(blocks: seq<Block>): (n: nat)
    ensures n <= |blocks|
    ensures n > 0 ==> blocks[n - 1].ExceptBlock?
    ensures forall i :: n <= i < |blocks| ==> blocks[i].LoopBlock?
  {
    if blocks == [] || blocks[|blocks| - 1].ExceptBlock? then |blocks| else Catching(blocks[..|blocks| - 1])
  }

  /** The operand stack once the blocks from n on have been popped from the top. */
  function Cut(stack: seq<Value>, blocks: seq<Block>, n: nat): seq<Value>
    requires n <= |blocks|
  {
    if n == |blocks| then stack
    else Cut(Trim(stack, blocks[|blocks| - 1].depth), blocks[..|blocks| - 1], n)
  }

  lemma ExceptionPass(c: Vm, size: nat, x: Value)
    requires c.reason == REASON_EXCEPTION && c.exc == Some(x)
    ensures UnwindPass(c, size) ==
            if c.blocks == [] then c.(status := Left)
            else
              var b := c.blocks[|c.blocks| - 1];
              if b.LoopBlock? then c.(stack := Trim(c.stack, b.depth), blocks := c.blocks[..|c.blocks| - 1])
              else Push(c.(stack := Trim(c.stack, b.depth + 1), ip := b.onCatch, reason := REASON_NONE), x, size)
  {
  }

  /** Where an exception comes out: the loops inside the innermost try are popped, and it resumes at its
      catches, with no more than the marker left above the stack of its entry and the exception on top.
      Without a try every block is popped, the stack is cut, and the frame is left. */
  function ComesOut(c: Vm, x: Value, size: nat): Vm {
    hide Cut, Trim, Push;
    var n := Catching(c.blocks);
    var s := Cut(c.stack, c.blocks, n);
    if n == 0 then c.(blocks := [], stack := s, status := Left)
    else
      var around := c.blocks[n - 1];
      Push(c.(blocks := c.blocks[..n], stack := Trim(s, around.depth + 1), ip := around.onCatch, reason := REASON_NONE), x, size)
  }

  lemma ComesOutLater(c: Vm, x: Value, size: nat)
    requires c.blocks != [] && c.blocks[|c.blocks| - 1].LoopBlock?
    ensures var d := c.(stack := Trim(c.stack, c.blocks[|c.blocks| - 1].depth), blocks := c.blocks[..|c.blocks| - 1]);
            ComesOut(c, x, size) == ComesOut(d, x, size) && Catching(c.blocks) == Catching(d.blocks)
  {
    hide Trim, Push;
    var d := c.(stack := Trim(c.stack, c.blocks[|c.blocks| - 1].depth), blocks := c.blocks[..|c.blocks| - 1]);
    var n := Catching(c.blocks);
    assert Cut(d.stack, d.blocks, n) == Cut(c.stack, c.blocks, n);
    assert d.blocks[..n] == c.blocks[..n];
  }

  /** From any block stack, an exception comes out there, after one pass for each block popped and one
      more. */
  lemma {:induction false} ExceptionUnwinds(w: World, b: Bytecode, c: Vm, x: Value)
    requires c.status.Running? && c.reason == REASON_EXCEPTION && c.exc == Some(x)
    ensures Run(w, b, |c.blocks| - Catching(c.blocks) + 1, c) == ComesOut(c, x, b.stackSize)
    decreases |c.blocks|
  {
    hide Run, UnwindPass, Push, Trim;
    RunMore(w, b, |c.blocks| - Catching(c.blocks) + 1, c);
    ExceptionPass(c, b.stackSize, x);
    if c.blocks != [] && c.blocks[|c.blocks| - 1].LoopBlock? {
      hide Catching, ComesOut;
      ComesOutLater(c, x, b.stackSize);
      ExceptionUnwinds(w, b, UnwindPass(c, b.stackSize), x);
    } else {
      assert c.blocks[..|c.blocks|] == c.blocks;
      RunNone(w, b, Step(w, b, c));
    }
  }

  /** With properly nested blocks nothing below the depth of the last block popped is lost. */
  lemma {:induction false} CutNested(c: Vm, n: nat)
    requires n <= |c.blocks| && Nested(c)
    ensures Cut(c.stack, c.blocks, n) == if n == |c.blocks| then c.stack else c.stack[..c.blocks[n].depth]
    decreases |c.blocks| - n
  {
    if n < |c.blocks| {
      var inner := c.blocks[|c.blocks| - 1];
      var d := c.(stack := Trim(c.stack, inner.depth), blocks := c.blocks[..|c.blocks| - 1]);
      CutNested(d, n);
    }
  }

  /** In properly nested blocks, an exception under a try resumes with exactly the operand stack that
      the try was entered with, its marker, and the exception. */
  lemma CaughtExactly(w: World, b: Bytecode, c: Vm, x: Value)
    requires c.status.Running? && c.reason == REASON_EXCEPTION && c.exc == Some(x) && Nested(c)
    requires var n := Catching(c.blocks);
             n > 0 && Deep(c, n) && c.blocks[n - 1].depth + 1 < b.stackSize
    ensures var n := Catching(c.blocks);
            var around := c.blocks[n - 1];
            Run(w, b, |c.blocks| - n + 1, c)
            == c.(blocks := c.blocks[..n], stack := c.stack[..around.depth + 1] + [x], ip := around.onCatch, reason := REASON_NONE)
  {
    hide Run, Cut;
    ExceptionUnwinds(w, b, c, x);
    CutNested(c, Catching(c.blocks));
  }

  /** The marker of the exception block below position n is still in place, under every later block. */
  predicate Deep(c: Vm, n: nat)
    requires 0 < n <= |c.blocks|
  {
    c.blocks[n - 1].depth < |c.stack| && (n < |c.blocks| ==> c.blocks[n - 1].depth < c.blocks[n].depth)
  }

  // ----- a jump that lands outside its loop -----

  /** `breakelse` in a loop that was set up without an else part starts the frame again from its first
      instruction, with the loop's block still in place; in any other loop it goes to the else part. */
  lemma BreakElseTarget(w: World, size: nat, end: nat, orElse: nat, withElse: bool, c: Vm, d: Vm)
    requires c.status.Running? && |c.blocks| < BLOCK_MAX_DEPTH
    requires d == ExecInstr(w, size, if withElse then SetupElseLoop(end, orElse) else SetupLoop(end), c)
    ensures var e := UnwindPass(d.(reason := REASON_BREAKELSE), size);
            && e == d.(ip := if withElse then orElse else 0, reason := REASON_NONE)
            && |e.blocks| == |c.blocks| + 1
  {
  }
}
