/** How the run of a statement's code ends, for each way in which the statement can end, and what
    unwinding makes of that at the end of a loop. */
module Endings {
  import opened Values
  import opened Semantics
  import opened Assembly
  import opened Machine
  import opened Assembler
  import opened Trace
  import opened Steps
  import opened SimulateExpr
  import opened SimulateAssign

  /** A loop jump or a return has been executed and waits for its block: stack and blocks are those of c. */
  predicate Jumping(d: Vm, c: Vm, vars: Vars, reason: int) {
    d == c.(ip := d.ip, vars := vars, reason := reason, ret := d.ret, exc := d.exc)
  }

  /** The frame is about to start again from its first instruction, deeper inside than c, with a loop that
      has no else part still open. */
  predicate Restarted(d: Vm, c: Vm, vars: Vars) {
    && d == c.(ip := 0, stack := d.stack, blocks := d.blocks, vars := vars, ret := d.ret, exc := d.exc)
    && c.stack <= d.stack && c.blocks < d.blocks
    && var b := d.blocks[|d.blocks| - 1]; b.LoopBlock? && b.orElse == 0 && b.depth == |d.stack|
  }

  /** Entered in c after n steps, the code that ends before line end is, after m steps, in a state d
      that outcome o describes. */
  ghost predicate Ends(x: Ctx, c: Vm, o: Outcome, end: nat, cont: Option<Label>, n: nat, fuel: nat, m: nat, d: Vm) {
    m >= n && Reached(x, m, d) &&
    match o
    case Normal(vars) => d == c.(ip := Off(x.p, end), vars := vars, ret := d.ret, exc := d.exc)
    case Broke(vars) => Jumping(d, c, vars, REASON_BREAK)
    case BrokeElse(vars) => Jumping(d, c, vars, REASON_BREAKELSE)
    case Continued(vars) =>
      cont.Some? && Jumping(d, c, vars, REASON_CONTINUE) && d.ret == Some(Num(Addr(x.p, cont.value)))
    case Threw(vars, y) => Raising(d, c, vars, y)
    case Returned(vars, v) =>
      Jumping(d, c, vars, REASON_RETURN) && d.ret == Some(v) && c.ip < d.ip <= Off(x.p, end)
    case Leave(vars, v) => d.status.Left? && d.vars == vars && d.ret == Some(v)
    case Hang => Stuck(d, x.size)
    case Abort => d.status.Fatal?
    case Restart(vars) => Restarted(d, c, vars)
    case Unknown => false
    case Timeout => m >= n + fuel && d.status.Running?
  }

  /** What a computation that does not yield a value makes of the statement it belongs to. */
  lemma EndsFailure(x: Ctx, c: Vm, r: Result, end: nat, cont: Option<Label>, n: nat, fuel: nat, m: nat, d: Vm, e: nat)
    requires !r.Ok? && m >= n && Reached(x, m, d) && Computed(x, c, r, e, d)
    ensures Ends(x, c, Failure(c.vars, r), end, cont, n, fuel, m, d)
  {
  }

  lemma EndsNormal(x: Ctx, c: Vm, end: nat, cont: Option<Label>, n: nat, fuel: nat, m: nat, d: Vm)
    requires m >= n && Reached(x, m, d) && d == c.(ip := Off(x.p, end), vars := d.vars, ret := d.ret, exc := d.exc)
    ensures Ends(x, c, Normal(d.vars), end, cont, n, fuel, m, d)
  {
  }

  lemma EndsLeft(x: Ctx, c: Vm, end: nat, cont: Option<Label>, n: nat, fuel: nat, m: nat, d: Vm)
    requires m >= n && Reached(x, m, d)
    ensures d.status.Left? && d.ret.Some? ==> Ends(x, c, Leave(d.vars, d.ret.value), end, cont, n, fuel, m, d)
    ensures Stuck(d, x.size) ==> Ends(x, c, Hang, end, cont, n, fuel, m, d)
  {
  }

  lemma EndedNormally(x: Ctx, c: Vm, o: Outcome, end: nat, cont: Option<Label>, n: nat, fuel: nat, m: nat, d: Vm)
    requires Ends(x, c, o, end, cont, n, fuel, m, d) && o.Normal?
    ensures m >= n && Reached(x, m, d) && d == c.(ip := Off(x.p, end), vars := o.vars, ret := d.ret, exc := d.exc)
  {
  }

  lemma EndedThrowing(x: Ctx, c: Vm, o: Outcome, end: nat, cont: Option<Label>, n: nat, fuel: nat, m: nat, d: Vm)
    requires Ends(x, c, o, end, cont, n, fuel, m, d) && o.Threw?
    ensures m >= n && Reached(x, m, d) && Raising(d, c, o.vars, o.x)
  {
  }

  lemma EndedReturning(x: Ctx, c: Vm, o: Outcome, end: nat, cont: Option<Label>, n: nat, fuel: nat, m: nat, d: Vm)
    requires Ends(x, c, o, end, cont, n, fuel, m, d) && o.Returned?
    ensures m >= n && Reached(x, m, d) && Jumping(d, c, o.vars, REASON_RETURN) && d.ret == Some(o.v) && c.ip < d.ip <= Off(x.p, end)
  {
  }

  lemma EndedJumping(x: Ctx, c: Vm, o: Outcome, end: nat, cont: Option<Label>, n: nat, fuel: nat, m: nat, d: Vm)
    requires Ends(x, c, o, end, cont, n, fuel, m, d) && (o.Broke? || o.BrokeElse? || o.Continued?)
    ensures m >= n && Reached(x, m, d)
    ensures Jumping(d, c, o.vars, if o.Broke? then REASON_BREAK else if o.BrokeElse? then REASON_BREAKELSE else REASON_CONTINUE)
  {
  }

  lemma EndsTimeout(x: Ctx, c: Vm, end: nat, cont: Option<Label>, n: nat, m: nat, d: Vm)
    requires m >= n && Reached(x, m, d) && d.status.Running?
    ensures Ends(x, c, Timeout, end, cont, n, 0, m, d)
  {
  }

  lemma EndsAnyCont(x: Ctx, c: Vm, o: Outcome, end: nat, cont: Option<Label>, n: nat, fuel: nat, m: nat, d: Vm)
    requires Ends(x, c, o, end, None, n, fuel, m, d)
    ensures Ends(x, c, o, end, cont, n, fuel, m, d)
  {
  }

  /** An ending does not depend on where, with which variables or when it was entered. */
  lemma EndsFrom(x: Ctx, c: Vm, c2: Vm, o: Outcome, end: nat, cont: Option<Label>, n: nat, n2: nat, fuel: nat, fuel2: nat, m: nat, d: Vm)
    requires Ends(x, c, o, end, cont, n, fuel, m, d) && (o.Returned? ==> c2.ip <= c.ip)
    requires c2.stack == c.stack && c2.blocks == c.blocks && c2.cursors == c.cursors && c2.reason == c.reason && c2.status == c.status
    requires n2 <= n && n2 + fuel2 <= n + fuel
    ensures Ends(x, c2, o, end, cont, n2, fuel2, m, d)
  {
  }

  /** A statement that does not end normally ends the statement around it, too. */
  lemma EndsInner(x: Ctx, c: Vm, c2: Vm, o: Outcome, j: nat, end: nat, cont: Option<Label>, cont2: Option<Label>,
                  n: nat, n2: nat, fuel: nat, m: nat, d: Vm, k: nat, k2: nat)
    requires Ends(x, c2, o, j, cont2, n2, fuel, m, d) && !o.Normal?
    requires c.ip == Off(x.p, k) && c2.ip == Off(x.p, k2) && k <= k2 && j <= end
    requires c2.stack == c.stack && c2.blocks == c.blocks && c2.cursors == c.cursors && c2.reason == c.reason && c2.status == c.status
    requires n <= n2 && (cont2.Some? ==> cont == cont2)
    ensures Ends(x, c, o, end, cont, n, fuel, m, d)
  {
    hide Reached, Addr;
    OffMonotone(x.p, k, k2);
    OffMonotone(x.p, j, end);
  }

  /** The end of a loop whose body, entered in c, ended with o.  The innermost block is the loop's, and
      breaks arrive at line j of `code` at k, its POP_BLOCK. */
  lemma Escapes(x: Ctx, c: Vm, o: Outcome, end: nat, cont: Option<Label>, n: nat, fuel: nat, m: nat, d: Vm,
                k: nat, code: seq<Line>, j: nat)
    returns (m2: nat, d2: Vm)
    requires Sound(x) && Live(c) && Ends(x, c, o, end, cont, n, fuel, m, d) && !Again(o) && !o.BrokeElse?
    requires HasCode(x.p, k, code) && j < |code| && code[j] == Code(PopBlock)
    requires c.blocks != []
    requires var b := c.blocks[|c.blocks| - 1]; b.LoopBlock? && b.depth == |c.stack| && b.end == Off(x.p, k + j)
    ensures Ends(x, c.(blocks := c.blocks[..|c.blocks| - 1]), Escape(o), k + j + 1, None, n, fuel, m2, d2)
  {
    hide Sound, Reached, HasCode, Off, Addr, ExecInstr;
    m2, d2 := m, d;
    if o.Broke? {
      d2 := Unwind(x, m, d);
      d2 := DoPopBlock(x, m + 1, d2, k, code, j);
      m2 := m + 2;
    } else if o.Threw? {
      d2 := Unwind(x, m, d);
      m2 := m + 1;
    }
  }

  /** `continue` and `breakelse` resume the loop at their label, with the loop's block in place. */
  lemma Resumes(x: Ctx, c: Vm, o: Outcome, end: nat, cont: Option<Label>, n: nat, fuel: nat, m: nat, d: Vm)
    returns (d2: Vm)
    requires Live(c) && Ends(x, c, o, end, cont, n, fuel, m, d) && (o.Continued? || o.BrokeElse?)
    requires c.blocks != [] && c.blocks[|c.blocks| - 1].LoopBlock? && c.blocks[|c.blocks| - 1].depth == |c.stack|
    ensures m >= n && Reached(x, m + 1, d2)
    ensures o.BrokeElse? || cont.Some?
    ensures d2 == c.(ip := if o.BrokeElse? then c.blocks[|c.blocks| - 1].orElse else Addr(x.p, cont.value),
                     vars := o.vars, ret := d2.ret, exc := d2.exc)
  {
    hide Reached, Addr, Off;
    d2 := Unwind(x, m, d);
  }

  /** `breakelse` in a loop without an else part does not stay in the loop. */
  lemma Restarts(x: Ctx, c: Vm, o: Outcome, end: nat, cont: Option<Label>, n: nat, fuel: nat, m: nat, d: Vm, end2: nat)
    returns (d2: Vm)
    requires Live(c) && Ends(x, c, o, end, cont, n, fuel, m, d) && o.BrokeElse?
    requires c.blocks != []
    requires var b := c.blocks[|c.blocks| - 1]; b.LoopBlock? && b.depth == |c.stack| && b.orElse == 0
    ensures Ends(x, c.(blocks := c.blocks[..|c.blocks| - 1]), Restart(o.vars), end2, None, n, fuel, m + 1, d2)
  {
    hide Reached, Addr, Off;
    d2 := Unwind(x, m, d);
  }

  /** Endings that nothing around the statement can change. */
  predicate Final(o: Outcome) {
    o.Leave? || o.Restart? || o.Hang? || o.Abort? || o.Unknown? || o.Timeout?
  }

  lemma EndsFinal(x: Ctx, c: Vm, c2: Vm, o: Outcome, end: nat, end2: nat, cont: Option<Label>, cont2: Option<Label>,
                  n: nat, n2: nat, fuel: nat, m: nat, d: Vm)
    requires Ends(x, c, o, end, cont, n, fuel, m, d) && Final(o) && n2 <= n
    requires c2.stack <= c.stack && c2.blocks <= c.blocks && c2.cursors == c.cursors && c2.reason == c.reason && c2.status == c.status
    ensures Ends(x, c2, o, end2, cont2, n2, fuel, m, d)
  {
  }

  // ----- try -----

  /** The innermost block is an exception block; its try was entered with `base` on the stack, and the
      marker of the try still lies above it. */
  predicate InTry(c: Vm, base: seq<Value>) {
    && c.blocks != [] && c.blocks[|c.blocks| - 1].ExceptBlock? && c.blocks[|c.blocks| - 1].depth == |base|
    && base + [Num(REASON_FINALLY)] <= c.stack
  }

  function TryBlock(c: Vm): Block
    requires c.blocks != []
  {
    c.blocks[|c.blocks| - 1]
  }

  /** An exception in a try resumes at its catches, with the exception above the marker. */
  lemma Catches(x: Ctx, m: nat, d: Vm, base: seq<Value>, y: Value) returns (d2: Vm)
    requires Reached(x, m, d) && d.status.Running? && d.reason == REASON_EXCEPTION && d.exc == Some(y)
    requires InTry(d, base) && |base| + 2 <= x.size
    ensures Reached(x, m + 1, d2)
    ensures d2 == d.(ip := TryBlock(d).onCatch, stack := base + [Num(REASON_FINALLY), y], reason := REASON_NONE)
  {
    hide Reached;
    d2 := Unwind(x, m, d);
    assert Trim(d.stack, |base| + 1) == base + [Num(REASON_FINALLY)];
    assert base + [Num(REASON_FINALLY)] + [y] == base + [Num(REASON_FINALLY), y];
  }

  /** A return in a try or one of its handlers resumes at the finally part, with the value and the
      reason above the marker. */
  lemma Delays(x: Ctx, m: nat, d: Vm, base: seq<Value>, v: Value) returns (d2: Vm)
    requires Reached(x, m, d) && d.status.Running? && d.reason == REASON_RETURN && d.ret == Some(v)
    requires InTry(d, base) && |d.stack| + 2 <= x.size && d.ip <= TryBlock(d).onFinally
    ensures Reached(x, m + 1, d2)
    ensures d2 == d.(ip := TryBlock(d).onFinally, stack := d.stack + [v, Num(REASON_RETURN)], reason := REASON_NONE)
  {
    hide Reached;
    d2 := Unwind(x, m, d);
    PushAllFits(d, [v, Num(REASON_RETURN)], x.size);
  }

  /** A return past the beginning of the finally part leaves the frame. */
  lemma Leaves(x: Ctx, m: nat, d: Vm, base: seq<Value>, v: Value) returns (d2: Vm)
    requires Reached(x, m, d) && d.status.Running? && d.reason == REASON_RETURN && d.ret == Some(v)
    requires InTry(d, base) && |d.stack| + 2 <= x.size && d.ip > TryBlock(d).onFinally
    ensures Reached(x, m + 1, d2) && d2.status.Left? && d2.vars == d.vars && d2.ret == Some(v)
  {
    hide Reached;
    d2 := Unwind(x, m, d);
    PushAllFits(d, [v, Num(REASON_RETURN)], x.size);
  }

  /** Nothing else gets past an exception block. */
  lemma Hangs(x: Ctx, m: nat, d: Vm, base: seq<Value>) returns (d2: Vm)
    requires Reached(x, m, d) && d.status.Running? && InTry(d, base)
    requires d.reason in {REASON_BREAK, REASON_BREAKELSE, REASON_CONTINUE, REASON_RERAISE}
    ensures Reached(x, m + 1, d2) && Stuck(d2, x.size)
  {
    hide Reached;
    d2 := Unwind(x, m, d);
  }

  /** A finally part whose own end is neither normal nor an exception: a return leaves the frame, and no loop
      jump gets out. */
  lemma LeavesOrHangs(x: Ctx, c: Vm, o: Outcome, j: nat, cont: Option<Label>, n: nat, fuel: nat, m0: nat, d0: Vm, base: seq<Value>, end: nat)
    returns (m: nat, d: Vm)
    requires Ends(x, c, o, j, cont, n, fuel, m0, d0) && !o.Normal? && !o.Threw?
    requires InTry(c, base) && |c.stack| + 2 <= x.size && Live(c) && TryBlock(c).onFinally <= c.ip
    ensures Ends(x, Around(c, base), if o.Returned? then Leave(o.vars, o.v) else Across(o), end, None, n, fuel, m, d)
  {
    hide Ends, Reached;
    m, d := m0, d0;
    if o.Returned? {
      EndedReturning(x, c, o, j, cont, n, fuel, m, d);
      d := Leaves(x, m, d, base, o.v);
      m := m + 1;
      EndsLeft(x, Around(c, base), end, None, n, fuel, m, d);
    } else if o.Broke? || o.BrokeElse? || o.Continued? {
      EndedJumping(x, c, o, j, cont, n, fuel, m, d);
      d := Hangs(x, m, d, base);
      m := m + 1;
      EndsLeft(x, Around(c, base), end, None, n, fuel, m, d);
    } else {
      assert Around(c, base).stack <= c.stack && Around(c, base).blocks <= c.blocks;
      EndsFinal(x, c, Around(c, base), o, j, end, cont, None, n, n, fuel, m, d);
    }
  }

  // ----- switch -----

  /** The machine state around a construct that was entered with base on the stack. */
  function Around(c: Vm, base: seq<Value>): Vm
    requires c.blocks != []
  {
    c.(stack := base, blocks := c.blocks[..|c.blocks| - 1])
  }

  /** An exception passes a loop block, which takes the values above its depth with it. */
  lemma Passes(x: Ctx, m: nat, d: Vm, c: Vm, base: seq<Value>, vars: Vars, y: Value) returns (d2: Vm)
    requires Reached(x, m, d) && Raising(d, c, vars, y) && base <= c.stack
    requires c.blocks != [] && c.blocks[|c.blocks| - 1].LoopBlock? && |base| <= c.blocks[|c.blocks| - 1].depth
    ensures Reached(x, m + 1, d2) && Raising(d2, Around(c, base), vars, y)
  {
    hide Reached;
    d2 := Unwind(x, m, d);
  }

  /** A computation inside a switch that does not yield a value. */
  lemma FailsInside(x: Ctx, c: Vm, base: seq<Value>, r: Result, e: nat, end: nat, n: nat, fuel: nat, m: nat, d: Vm)
    returns (m2: nat, d2: Vm)
    requires !r.Ok? && m >= n && Reached(x, m, d) && Computed(x, c, r, e, d) && base <= c.stack
    requires c.blocks != [] && c.blocks[|c.blocks| - 1].LoopBlock? && |base| <= c.blocks[|c.blocks| - 1].depth
    ensures Ends(x, Around(c, base), Failure(c.vars, r), end, None, n, fuel, m2, d2)
  {
    hide Reached;
    m2, d2 := m, d;
    if r.Raise? {
      d2 := Passes(x, m, d, c, base, c.vars, r.x);
      m2 := m + 1;
    }
  }
}
