/** The code of a statement does what the reference semantics says, for every way in which it can end. */
module SimulateStmt {
  import opened Values
  import opened Syntax
  import opened Semantics
  import opened Assembly
  import opened Emit
  import opened Machine
  import opened Assembler
  import opened Limits
  import opened Trace
  import opened Steps
  import opened SimulateExpr
  import opened SimulateAssign
  import opened Layout
  import opened Endings

  /** There is room for s on both stacks. */
  predicate Room(x: Ctx, c: Vm, s: Stmt) {
    |c.stack| + StackNeed(s) <= x.size && |c.blocks| + BlockNeed(s) <= BLOCK_MAX_DEPTH
  }

  lemma {:induction false} SimStmt(x: Ctx, s: Stmt, k: nat, l: nat, cont: Option<Label>, n: nat, c: Vm, fuel: nat)
    returns (m: nat, d: Vm)
    requires WellFormed(s, cont.Some?) && Room(x, c, s)
    requires Here(x, n, c, k) && HasCode(x.p, k, EmitStmt(s, l, cont))
    ensures Ends(x, c, Exec(x.w, s, c.vars, fuel), k + |EmitStmt(s, l, cont)|, cont, n, fuel, m, d)
    decreases fuel, s, 4, 0
  {
    hide Sound, Reached, HasCode, Off, Ends, Room;
    if s.Group? {
      m, d := SimGroup(x, s, k, l, cont, n, c, fuel);
    } else if s.If? {
      m, d := SimIf(x, s, k, l, cont, n, c, fuel);
    } else if s.While? {
      m, d := SimWhile(x, s, k, l, cont, n, c, fuel);
    } else if s.Do? {
      m, d := SimDo(x, s, k, l, cont, n, c, fuel);
    } else if s.For? {
      m, d := SimFor(x, s, k, l, cont, n, c, fuel);
    } else if s.Switch? {
      m, d := SimSwitch(x, s, k, l, cont, n, c, fuel);
    } else if s.Try? {
      m, d := SimTry(x, s, k, l, cont, n, c, fuel);
    } else {
      m, d := SimSimple(x, s, k, l, cont, n, c, fuel);
    }
  }

  lemma SimSimple(x: Ctx, s: Stmt, k: nat, l: nat, cont: Option<Label>, n: nat, c: Vm, fuel: nat)
    returns (m: nat, d: Vm)
    requires s.Nop? || s.Let? || s.Break? || s.BreakElse? || s.Continue? || s.Throw? || s.Return?
    requires WellFormed(s, cont.Some?) && Room(x, c, s)
    requires Here(x, n, c, k) && HasCode(x.p, k, EmitStmt(s, l, cont))
    ensures Ends(x, c, Exec(x.w, s, c.vars, fuel), k + |EmitStmt(s, l, cont)|, cont, n, fuel, m, d)
  {
    hide Sound, Reached, HasCode, Off, EmitExpr, Eval, ExprNeed, EmitAssign, ExecAssign, AssignNeed;
    m, d := n, c;
    if s.Let? {
      m, d := SimAssign(x, s.a, 0, k, l, n, c);
      assert c.stack + [] == c.stack;
    } else if s.Throw? || s.Return? {
      m, d := SimLast(x, s.e, if s.Throw? then Instr.Throw else Instr.Return, k, l, cont, n, c, fuel);
    } else if !s.Nop? {
      m, d := SimJump(x, s, k, l, cont, n, c, fuel);
    }
  }

  lemma SimJump(x: Ctx, s: Stmt, k: nat, l: nat, cont: Option<Label>, n: nat, c: Vm, fuel: nat)
    returns (m: nat, d: Vm)
    requires s.Break? || s.BreakElse? || s.Continue?
    requires WellFormed(s, cont.Some?) && Here(x, n, c, k) && HasCode(x.p, k, EmitStmt(s, l, cont))
    ensures Ends(x, c, Exec(x.w, s, c.vars, fuel), k + |EmitStmt(s, l, cont)|, cont, n, fuel, m, d)
  {
    hide Sound, Reached, HasCode, Off, Addr, EndFinallyStep, IterResetStep, IterFetchStep, PushAll, PushResult, Lookup, EnterBlock,
      EmitExpr, EmitAssign, IfCode, WhileCode, DoCode, ForCode, SwitchCode, TryCode, EmitCases, EmitCatches, EmitStmts, EmitInit,
      Eval, ExecAssign, LoopWhile, LoopDo, LoopFor, Select, Handle, Concluded, ExecItems;
    d := DoLine(x, n, c, k, EmitStmt(s, l, cont), 0, EmitStmt(s, l, cont)[0].i);
    m := n + 1;
  }

  /** A throw or a return: compute a value, then take it from the stack. */
  lemma SimLast(x: Ctx, e: Expr, i: Instr<Label>, k: nat, l: nat, cont: Option<Label>, n: nat, c: Vm, fuel: nat)
    returns (m: nat, d: Vm)
    requires (i.Throw? || i.Return?) && |c.stack| + ExprNeed(e) <= x.size
    requires Here(x, n, c, k) && HasCode(x.p, k, EmitExpr(e, l) + [Op(i)])
    ensures var r := Eval(x.w, e, c.vars);
            Ends(x, c, if !r.Ok? then Failure(c.vars, r) else if i.Throw? then ThrowValue(x.w, r.v, c.vars) else Returned(c.vars, r.v),
                 k + |EmitExpr(e, l)| + 1, cont, n, fuel, m, d)
  {
    hide Sound, Reached, HasCode, Off, ExecInstr, EmitExpr, Eval, ExprNeed;
    NestedAt(x, n, c);
    var ce := EmitExpr(e, l);
    Split(x.p, k, ce, [Op(i)]);
    m, d := SimExpr(x, e, k, l, n, c);
    var r := Eval(x.w, e, c.vars);
    if r.Ok? {
      assert d.stack[..|d.stack| - 1] == c.stack;
      d := DoLast(x, m, d, k + |ce|, [Op(i)], 0, i);
      OffMonotone(x.p, k, k + |ce|);
      m := m + 1;
    }
  }

  lemma {:induction false} SimGroup(x: Ctx, s: Stmt, k: nat, l: nat, cont: Option<Label>, n: nat, c: Vm, fuel: nat)
    returns (m: nat, d: Vm)
    requires s.Group? && WellFormed(s, cont.Some?) && Room(x, c, s)
    requires Here(x, n, c, k) && HasCode(x.p, k, EmitStmt(s, l, cont))
    ensures Ends(x, c, Exec(x.w, s, c.vars, fuel), k + |EmitStmt(s, l, cont)|, cont, n, fuel, m, d)
    decreases fuel, s, 3, 0
  {
    hide Sound, Reached, HasCode, Off, Ends, EmitStmts, ExecItems;
    m, d := SimStmts(x, s.items, k, l, cont, n, c, fuel);
  }

  lemma {:induction false} SimStmts(x: Ctx, items: seq<Stmt>, k: nat, l: nat, cont: Option<Label>, n: nat, c: Vm, fuel: nat)
    returns (m: nat, d: Vm)
    requires WellFormedItems(items, cont.Some?)
    requires |c.stack| + ItemsStackNeed(items) <= x.size && |c.blocks| + ItemsBlockNeed(items) <= BLOCK_MAX_DEPTH
    requires Here(x, n, c, k) && HasCode(x.p, k, EmitStmts(items, l, cont))
    ensures Ends(x, c, ExecItems(x.w, items, c.vars, fuel), k + |EmitStmts(items, l, cont)|, cont, n, fuel, m, d)
    decreases fuel, items, 2, 0
  {
    hide Sound, Reached, HasCode, Off, Addr, EmitStmt, Exec, StackNeed, BlockNeed, WellFormed, Drift, StmtCount;
    m, d := n, c;
    if items != [] {
      var rest := Kept(cont, Drift(items[0]));
      var first, after := EmitStmt(items[0], l, cont), EmitStmts(items[1..], l + StmtCount(items[0]), rest);
      Split(x.p, k, first, after);
      m, d := SimStmt(x, items[0], k, l, cont, n, c, fuel);
      OffMonotone(x.p, k, k + |first|);
      OffMonotone(x.p, k + |first|, k + |first| + |after|);
      var o := Exec(x.w, items[0], c.vars, fuel);
      if o.Normal? {
        m, d := SimStmts(x, items[1..], k + |first|, l + StmtCount(items[0]), rest, m, d, fuel);
      }
    }
  }

  lemma {:induction false} SimIf(x: Ctx, s: Stmt, k: nat, l: nat, cont: Option<Label>, n: nat, c: Vm, fuel: nat)
    returns (m: nat, d: Vm)
    requires s.If? && WellFormed(s, cont.Some?) && Room(x, c, s)
    requires Here(x, n, c, k) && HasCode(x.p, k, EmitStmt(s, l, cont))
    ensures Ends(x, c, Exec(x.w, s, c.vars, fuel), k + |EmitStmt(s, l, cont)|, cont, n, fuel, m, d)
    decreases fuel, s, 3, 0
  {
    hide Sound, Reached, HasCode, Off, Ends, IfCode, ExprCount, EmitExpr, ExprNeed, Eval;
    var l1 := l + 1 + ExprCount(s.cond);
    var e := if s.els.Some? then s.els.value else Nop;
    m, d := SimBranch(x, s, s.cond, s.thn, e, k, l + 1, l1, l1 + StmtCount(s.thn), cont, Kept(cont, Drift(s.thn)), n, c, fuel);
  }

  lemma {:induction false} SimBranch(x: Ctx, s: Stmt, a: Expr, t: Stmt, e: Stmt, k: nat, l: nat, lt: nat, le: nat,
                                     cont: Option<Label>, ca: Option<Label>, n: nat, c: Vm, fuel: nat)
    returns (m: nat, d: Vm)
    requires s.If? && t < s && (e < s || e.Nop?) && (ca.Some? ==> ca == cont)
    requires WellFormed(t, cont.Some?) && Room(x, c, t) && WellFormed(e, ca.Some?) && Room(x, c, e)
    requires |c.stack| + ExprNeed(a) <= x.size && Here(x, n, c, k)
    requires HasCode(x.p, k, IfCode(l, EmitExpr(a, l), EmitStmt(t, lt, cont), EmitStmt(e, le, ca)))
    ensures var va := Eval(x.w, a, c.vars);
            Ends(x, c, if va.Ok? then Exec(x.w, if Truth(x.w, va.v) then t else e, c.vars, fuel) else Failure(c.vars, va),
                 k + |IfCode(l, EmitExpr(a, l), EmitStmt(t, lt, cont), EmitStmt(e, le, ca))|, cont, n, fuel, m, d)
    decreases fuel, s, 2, 0
  {
    hide Sound, Reached, HasCode, Off, Addr, ExecInstr, IfCode, EmitExpr, Eval, ExprNeed, EmitStmt, Exec, WellFormed, StackNeed, BlockNeed, Computed, Truth, Failure;
    NestedAt(x, n, c);
    var cc, ct, ce := EmitExpr(a, l), EmitStmt(t, lt, cont), EmitStmt(e, le, ca);
    var fl, el := L(IfElse, l), L(IfEnd, l);
    var s1, s2, s3 := [Op(JumpIfFalse(fl)), Op(PopTop)], [Op(JumpAbsolute(el)), Lab(fl), Op(PopTop)], [Op(JumpAbsolute(el)), Lab(el)];
    var k1 := k + |cc|;
    var k2 := k1 + 2 + |ct|;
    var k3 := k2 + 3 + |ce|;
    IfParts(x, k, l, cc, ct, ce);
    m, d := SimExpr(x, a, k, l, n, c);
    var va := Eval(x.w, a, c.vars);
    if !va.Ok? {
      EndsFailure(x, c, va, k3 + 2, cont, n, fuel, m, d, k1);
      return;
    }
    Yields(x, c, va, k1, d);
    d := DoTest(x, m, d, k1, s1, 0, JumpIfFalse(fl));
    var b, kb := if Truth(x.w, va.v) then t else e, if Truth(x.w, va.v) then k1 + 2 else k2 + 3;
    if Truth(x.w, va.v) {
      d := DoPop(x, m + 1, d, k1, s1, 1);
    } else {
      d := DoPop(x, m + 1, d, k2, s2, 2);
    }
    var c2, n2, end, cb := d, m + 2, if Truth(x.w, va.v) then k2 else k3, if Truth(x.w, va.v) then cont else ca;
    if Truth(x.w, va.v) {
      m, d := SimStmt(x, t, kb, lt, cont, n2, c2, fuel);
    } else if e.Nop? {
      m, d := SimSimple(x, e, kb, le, ca, n2, c2, fuel);
    } else {
      m, d := SimStmt(x, e, kb, le, ca, n2, c2, fuel);
    }
    var o := Exec(x.w, b, c.vars, fuel);
    if o.Normal? {
      if Truth(x.w, va.v) {
        d := DoJump(x, m, d, k2, s2, 0, el);
      } else {
        d := DoJump(x, m, d, k3, s3, 0, el);
      }
      m := m + 1;
    } else {
      EndsInner(x, c, c2, o, end, k3 + 2, cont, cb, n, n2, fuel, m, d, k, kb);
    }
  }

  // ----- while -----

  /** The code of the while loop s, whose number is l, stands at k. */
  ghost predicate WhileAt(x: Ctx, s: Stmt, k: nat, l: nat) {
    s.While? && Sound(x) && HasCode(x.p, k, WhileBody(s, l)) && WellFormed(s, false)
  }

  function WhileElseBody(s: Stmt, l: nat): (e: Option<Snippet>)
    requires s.While?
    ensures e.Some? == s.els.Some?
  {
    if s.els.None? then None
    else Some(EmitStmt(s.els.value, l + ExprCount(s.cond) + StmtCount(s.body), Kept(Some(L(WhileTop, l)), Drift(s.body))))
  }

  function WhileBody(s: Stmt, l: nat): Snippet
    requires s.While?
  {
    WhileCode(l, EmitExpr(s.cond, l), EmitStmt(s.body, l + ExprCount(s.cond), Some(L(WhileTop, l))), WhileElseBody(s, l))
  }

  /** Where the else part of the loop begins, and where its last four lines do. */
  function WhileElseAt(s: Stmt, k: nat, l: nat): nat
    requires s.While?
  {
    k + 5 + |EmitExpr(s.cond, l)| + |EmitStmt(s.body, l + ExprCount(s.cond), Some(L(WhileTop, l)))| + (if s.els.Some? then 1 else 0)
  }

  function WhileTailAt(s: Stmt, k: nat, l: nat): nat
    requires s.While?
  {
    WhileElseAt(s, k, l) + |WhileElseCode(l, WhileElseBody(s, l))|
  }

  /** The innermost block of c is that of the loop. */
  predicate InWhile(x: Ctx, s: Stmt, l: nat, visited: bool, c: Vm)
    requires s.While?
  {
    && |c.stack| + StackNeed(s) <= x.size && c.blocks != [] && |c.blocks| - 1 + BlockNeed(s) <= BLOCK_MAX_DEPTH
    && c.blocks[|c.blocks| - 1]
       == LoopBlock(Addr(x.p, L(WhileEnd, l)), if s.els.Some? then Addr(x.p, L(WhileElse, l)) else 0, |c.stack|,
                    s.els.Some? && visited)
  }

  function Outer(c: Vm): Vm
    requires c.blocks != []
  {
    c.(blocks := c.blocks[..|c.blocks| - 1])
  }

  lemma {:induction false} SimWhile(x: Ctx, s: Stmt, k: nat, l: nat, cont: Option<Label>, n: nat, c: Vm, fuel: nat)
    returns (m: nat, d: Vm)
    requires s.While? && WellFormed(s, cont.Some?) && Room(x, c, s)
    requires Here(x, n, c, k) && HasCode(x.p, k, EmitStmt(s, l, cont))
    ensures Ends(x, c, Exec(x.w, s, c.vars, fuel), k + |EmitStmt(s, l, cont)|, cont, n, fuel, m, d)
    decreases fuel, s, 3, 1
  {
    hide Sound, Reached, HasCode, Off, Addr, ExecInstr, WhileCode, Ends, LoopWhile;
    assert EmitStmt(s, l, cont) == WhileBody(s, l + 1);
    m, d := SimWhileEnter(x, s, k, l + 1, n, c, fuel);
    EndsAnyCont(x, c, LoopWhile(x.w, s, c.vars, false, fuel), k + |WhileBody(s, l + 1)|, cont, n, fuel, m, d);
  }

  lemma {:induction false} SimWhileEnter(x: Ctx, s: Stmt, k: nat, l: nat, n: nat, c: Vm, fuel: nat)
    returns (m: nat, d: Vm)
    requires WhileAt(x, s, k, l) && Room(x, c, s) && Here(x, n, c, k)
    ensures Ends(x, c, LoopWhile(x.w, s, c.vars, false, fuel), k + |WhileBody(s, l)|, None, n, fuel, m, d)
    decreases fuel, s, 3, 0
  {
    hide Sound, Reached, HasCode, Off, Addr, ExecInstr, WhileCode, Ends, LoopWhile, EmitExpr, EmitStmt, StackNeed, WellFormed;
    var cc, cb := EmitExpr(s.cond, l), EmitStmt(s.body, l + ExprCount(s.cond), Some(L(WhileTop, l)));
    WhileParts(x, k, l, cc, cb, WhileElseBody(s, l));
    var i := if s.els.Some? then SetupElseLoop(L(WhileEnd, l), L(WhileElse, l)) else SetupLoop(L(WhileEnd, l));
    d := DoSetupLoop(x, n, c, k, [Op(i), Lab(L(WhileTop, l))], 0, i);
    LabelAt(x, k, [Op(i), Lab(L(WhileTop, l))], 1);
    assert Outer(d) == c.(ip := d.ip);
    var c2 := d;
    OffMonotone(x.p, k, k + 2);
    m, d := SimLoopWhile(x, s, k, l, false, n + 1, c2, fuel);
    EndsFrom(x, Outer(c2), c, LoopWhile(x.w, s, c.vars, false, fuel), k + |WhileBody(s, l)|, None, n + 1, n, fuel, fuel, m, d);
  }

  /** The loop from its test on. */
  lemma {:induction false} SimLoopWhile(x: Ctx, s: Stmt, k: nat, l: nat, visited: bool, n: nat, c: Vm, fuel: nat)
    returns (m: nat, d: Vm)
    requires WhileAt(x, s, k, l) && InWhile(x, s, l, visited, c) && Here(x, n, c, k + 2)
    ensures Ends(x, Outer(c), LoopWhile(x.w, s, c.vars, visited, fuel), k + |WhileBody(s, l)|, None, n, fuel, m, d)
    decreases fuel, s, 2, 2
  {
    hide Sound, Reached, HasCode, Off, Addr, ExecInstr, WhileCode, WhileElseCode, WhileElseBody, EmitExpr, EmitStmt, Eval, Exec, StackNeed, BlockNeed, ExprNeed, WellFormed, ElsePart, WhileRound, Ends, Lookup, Computed, Truth;
    var cc, cb := EmitExpr(s.cond, l), EmitStmt(s.body, l + ExprCount(s.cond), Some(L(WhileTop, l)));
    WhileParts(x, k, l, cc, cb, WhileElseBody(s, l));
    assert ExprNeed(s.cond) <= StackNeed(s) by { NeedsOfWhile(s); }
    var k1, k3 := k + 2 + |cc|, WhileTailAt(s, k, l);
    m, d := SimExpr(x, s.cond, k + 2, l, n, c);
    var r := Eval(x.w, s.cond, c.vars);
    if r.Ok? {
      Yields(x, c, r, k1, d);
      var n2 := m;
      m, d := SimWhileTest(x, s, k, l, visited, r.v, n2, c, d, fuel);
      EndsFrom(x, Outer(c), Outer(c), LoopWhile(x.w, s, c.vars, visited, fuel), k + |WhileBody(s, l)|, None, n2, n, fuel, fuel, m, d);
    } else {
      EndsFailure(x, c, r, k3, None, n, fuel, m, d, k1);
      var tail := [Lab(L(WhilePreEnd, l)), Op(PopTop), Lab(L(WhileEnd, l)), Op(PopBlock)];
      m, d := Escapes(x, c, Failure(c.vars, r), k3, None, n, fuel, m, d, k3, tail, 3);
    }
  }

  /** The tests of a round that was entered in c; the condition has yielded v. */
  lemma {:induction false} SimWhileTest(x: Ctx, s: Stmt, k: nat, l: nat, visited: bool, v: Value, n: nat, c: Vm, d0: Vm, fuel: nat)
    returns (m: nat, d: Vm)
    requires WhileAt(x, s, k, l) && InWhile(x, s, l, visited, c) && Live(c) && c.ip == Off(x.p, k + 2)
    requires Reached(x, n, d0) && d0 == c.(ip := Off(x.p, k + 2 + |EmitExpr(s.cond, l)|), stack := c.stack + [v])
    ensures var o := if Truth(x.w, v) then WhileRound(x.w, s, c.vars, fuel)
                     else if s.els.Some? && !visited then ElsePart(x.w, s, c.vars, fuel) else Normal(c.vars);
            Ends(x, Outer(c), o, k + |WhileBody(s, l)|, None, n, fuel, m, d)
    decreases fuel, s, 2, 1
  {
    hide Sound, Reached, HasCode, Off, Addr, ExecInstr, WhileCode, WhileElseCode, WhileElseBody, EmitExpr, EmitStmt, StackNeed, BlockNeed, WellFormed, ElsePart, WhileRound, Ends, Truth;
    var cc, cb := EmitExpr(s.cond, l), EmitStmt(s.body, l + ExprCount(s.cond), Some(L(WhileTop, l)));
    WhileParts(x, k, l, cc, cb, WhileElseBody(s, l));
    var k1, k2, k3 := k + 2 + |cc|, WhileElseAt(s, k, l), WhileTailAt(s, k, l);
    var tail := [Lab(L(WhilePreEnd, l)), Op(PopTop), Lab(L(WhileEnd, l)), Op(PopBlock)];
    assert d0.stack[..|d0.stack| - 1] == c.stack;
    var first := !Truth(x.w, v) && s.els.Some? && !visited;
    var k4 := k1 + if s.els.Some? then 1 else 0;
    m, d := n, d0;
    if s.els.Some? {
      d := DoFirstTest(x, m, d, k1, [Op(JumpIfFirstFalse(L(WhilePreElse, l)))], 0, L(WhilePreElse, l));
      m := m + 1;
    }
    if first {
      WhileElseParts(x, k2, l, WhileElseBody(s, l).value);
      d := DoPop(x, m, d, k2, [Lab(L(WhilePreElse, l)), Op(PopTop), Lab(L(WhileElse, l))], 1);
      var n2, c2 := m + 1, d;
      OffMonotone(x.p, k + 2, k2 + 3);
      m, d := SimElsePart(x, s, k, l, n2, c2, fuel);
      EndsFrom(x, Outer(c2), Outer(c), ElsePart(x.w, s, c.vars, fuel), k + |WhileBody(s, l)|, None, n2, n, fuel, fuel, m, d);
    } else {
      var test := [Op(JumpIfFalse(L(WhilePreEnd, l))), Op(PopTop)];
      d := DoTest(x, m, d, k4, test, 0, JumpIfFalse(L(WhilePreEnd, l)));
      if Truth(x.w, v) {
        d := DoPop(x, m + 1, d, k4, test, 1);
        var n2, c2 := m + 2, d;
        OffMonotone(x.p, k + 2, k4 + 2);
        m, d := SimWhileRound(x, s, k, l, n2, c2, fuel);
        EndsFrom(x, Outer(c2), Outer(c), WhileRound(x.w, s, c.vars, fuel), k + |WhileBody(s, l)|, None, n2, n, fuel, fuel, m, d);
      } else {
        d := DoPop(x, m + 1, d, k3, tail, 1);
        d := DoPopBlock(x, m + 2, d, k3, tail, 3);
        m := m + 3;
        EndsNormal(x, Outer(c), k + |WhileBody(s, l)|, None, n, fuel, m, d);
      }
    }
  }

  lemma NeedsOfWhile(s: Stmt)
    requires s.While?
    ensures ExprNeed(s.cond) <= StackNeed(s) && StackNeed(s.body) <= StackNeed(s) && BlockNeed(s.body) < BlockNeed(s)
    ensures s.els.Some? ==> StackNeed(s.els.value) <= StackNeed(s) && BlockNeed(s.els.value) < BlockNeed(s)
    ensures WellFormed(s, false) ==>
      WellFormed(s.body, true) && (s.els.Some? ==> WellFormed(s.els.value, Drift(s.body) == 0))
  {
  }

  /** Where the body of the loop begins. */
  function WhileBodyAt(s: Stmt, k: nat, l: nat): nat
    requires s.While?
  {
    k + 4 + |EmitExpr(s.cond, l)| + (if s.els.Some? then 1 else 0)
  }

  lemma {:induction false} SimWhileRound(x: Ctx, s: Stmt, k: nat, l: nat, n: nat, c: Vm, fuel: nat)
    returns (m: nat, d: Vm)
    requires WhileAt(x, s, k, l) && InWhile(x, s, l, true, c) && Here(x, n, c, WhileBodyAt(s, k, l))
    ensures Ends(x, Outer(c), WhileRound(x.w, s, c.vars, fuel), k + |WhileBody(s, l)|, None, n, fuel, m, d)
    decreases fuel, s, 2, 0
  {
    hide Sound, Reached, HasCode, Off, Addr, ExecInstr, WhileCode, WhileElseCode, WhileElseBody, EmitExpr, EmitStmt, Exec, StackNeed, BlockNeed, WellFormed, ElsePart, LoopWhile, ExprCount, StmtCount;
    var l1, here := l + ExprCount(s.cond), Some(L(WhileTop, l));
    var cc, cb := EmitExpr(s.cond, l), EmitStmt(s.body, l1, here);
    WhileParts(x, k, l, cc, cb, WhileElseBody(s, l));
    NeedsOfWhile(s);
    var k2, k3, end := WhileElseAt(s, k, l), WhileTailAt(s, k, l), k + |WhileBody(s, l)|;
    OffMonotone(x.p, k + 2, k2 - 1 - |cb|);
    m, d := SimStmt(x, s.body, k2 - 1 - |cb|, l1, here, n, c, fuel);
    var o := Exec(x.w, s.body, c.vars, fuel);
    if Again(o) {
      if o.Normal? {
        d := DoJump(x, m, d, k2 - 1, [Op(JumpAbsolute(L(WhileTop, l)))], 0, L(WhileTop, l));
      } else {
        d := Resumes(x, c, o, k2 - 1, here, n, fuel, m, d);
      }
      m := m + 1;
      if fuel == 0 { return; }
      var m2, c2 := m, d;
      m, d := SimLoopWhile(x, s, k, l, true, m2, c2, fuel - 1);
      EndsFrom(x, Outer(c2), Outer(c), LoopWhile(x.w, s, o.vars, true, fuel - 1), end, None, m2, n, fuel - 1, fuel, m, d);
    } else if o.BrokeElse? {
      if s.els.Some? {
        WhileElseParts(x, k2, l, WhileElseBody(s, l).value);
        d := Resumes(x, c, o, k2 - 1, here, n, fuel, m, d);
        var m2, c2 := m + 1, d;
        m, d := SimElsePart(x, s, k, l, m2, c2, fuel);
        EndsFrom(x, Outer(c2), Outer(c), ElsePart(x.w, s, o.vars, fuel), end, None, m2, n, fuel, fuel, m, d);
      } else {
        d := Restarts(x, c, o, k2 - 1, here, n, fuel, m, d, end);
        m := m + 1;
      }
    } else {
      m, d := Escapes(x, c, o, k2 - 1, here, n, fuel, m, d, k3, [Lab(L(WhilePreEnd, l)), Op(PopTop), Lab(L(WhileEnd, l)), Op(PopBlock)], 3);
    }
  }

  lemma {:induction false} SimElsePart(x: Ctx, s: Stmt, k: nat, l: nat, n: nat, c: Vm, fuel: nat)
    returns (m: nat, d: Vm)
    requires WhileAt(x, s, k, l) && s.els.Some? && InWhile(x, s, l, true, c) && Here(x, n, c, WhileElseAt(s, k, l) + 3)
    ensures Ends(x, Outer(c), ElsePart(x.w, s, c.vars, fuel), k + |WhileBody(s, l)|, None, n, fuel, m, d)
    decreases fuel, s, 1, 0
  {
    hide Sound, Reached, HasCode, Off, Addr, ExecInstr, WhileCode, WhileElseCode, EmitExpr, EmitStmt, Exec, StackNeed, BlockNeed, WellFormed, LoopWhile, ExprCount, StmtCount;
    var l1, here := l + ExprCount(s.cond), Some(L(WhileTop, l));
    var cc, cb := EmitExpr(s.cond, l), EmitStmt(s.body, l1, here);
    var le, cont := l1 + StmtCount(s.body), Kept(here, Drift(s.body));
    var ce := EmitStmt(s.els.value, le, cont);
    WhileParts(x, k, l, cc, cb, Some(ce));
    NeedsOfWhile(s);
    var k2, k3, end := WhileElseAt(s, k, l), WhileTailAt(s, k, l), k + |WhileBody(s, l)|;
    var tail := [Lab(L(WhilePreEnd, l)), Op(PopTop), Lab(L(WhileEnd, l)), Op(PopBlock)];
    WhileElseParts(x, k2, l, ce);
    m, d := SimStmt(x, s.els.value, k2 + 3, le, cont, n, c, fuel);
    var o := Exec(x.w, s.els.value, c.vars, fuel);
    if o.Normal? {
      d := DoJump(x, m, d, k2 + 3 + |ce|, [Op(JumpAbsolute(L(WhileEnd, l)))], 0, L(WhileEnd, l));
      d := DoPopBlock(x, m + 1, d, k3, tail, 3);
      m := m + 2;
    } else if o.Continued? || o.BrokeElse? {
      d := Resumes(x, c, o, k2 + 3 + |ce|, cont, n, fuel, m, d);
      m := m + 1;
      if fuel == 0 { return; }
      var m2, c2 := m, d;
      if o.Continued? {
        m, d := SimLoopWhile(x, s, k, l, true, m2, c2, fuel - 1);
        EndsFrom(x, Outer(c2), Outer(c), LoopWhile(x.w, s, o.vars, true, fuel - 1), end, None, m2, n, fuel - 1, fuel, m, d);
      } else {
        m, d := SimElsePart(x, s, k, l, m2, c2, fuel - 1);
        EndsFrom(x, Outer(c2), Outer(c), ElsePart(x.w, s, o.vars, fuel - 1), end, None, m2, n, fuel - 1, fuel, m, d);
      }
    } else {
      m, d := Escapes(x, c, o, k2 + 3 + |ce|, cont, n, fuel, m, d, k3, tail, 3);
    }
  }

  // ----- do -----

  function DoBody(s: Stmt, l: nat): Snippet
    requires s.Do?
  {
    DoCode(l, EmitStmt(s.body, l, Some(L(DoCmp, l))), EmitExpr(s.cond, l + StmtCount(s.body)))
  }

  ghost predicate DoAt(x: Ctx, s: Stmt, k: nat, l: nat) {
    s.Do? && Sound(x) && HasCode(x.p, k, DoBody(s, l)) && WellFormed(s, false)
  }

  /** The innermost block of c is the block of loop s, whose end is at offset `end`. */
  predicate InLoop(x: Ctx, s: Stmt, end: nat, c: Vm) {
    && |c.stack| + StackNeed(s) <= x.size && c.blocks != [] && |c.blocks| - 1 + BlockNeed(s) <= BLOCK_MAX_DEPTH
    && c.blocks[|c.blocks| - 1] == LoopBlock(end, 0, |c.stack|, false)
  }

  lemma {:induction false} SimDo(x: Ctx, s: Stmt, k: nat, l: nat, cont: Option<Label>, n: nat, c: Vm, fuel: nat)
    returns (m: nat, d: Vm)
    requires s.Do? && WellFormed(s, cont.Some?) && Room(x, c, s)
    requires Here(x, n, c, k) && HasCode(x.p, k, EmitStmt(s, l, cont))
    ensures Ends(x, c, Exec(x.w, s, c.vars, fuel), k + |EmitStmt(s, l, cont)|, cont, n, fuel, m, d)
    decreases fuel, s, 3, 1
  {
    hide Sound, Reached, HasCode, Off, Addr, ExecInstr, DoCode, Ends, LoopDo;
    assert EmitStmt(s, l, cont) == DoBody(s, l + 1);
    m, d := SimDoEnter(x, s, k, l + 1, n, c, fuel);
    EndsAnyCont(x, c, LoopDo(x.w, s, c.vars, fuel), k + |DoBody(s, l + 1)|, cont, n, fuel, m, d);
  }

  lemma {:induction false} SimDoEnter(x: Ctx, s: Stmt, k: nat, l: nat, n: nat, c: Vm, fuel: nat)
    returns (m: nat, d: Vm)
    requires DoAt(x, s, k, l) && Room(x, c, s) && Here(x, n, c, k)
    ensures Ends(x, c, LoopDo(x.w, s, c.vars, fuel), k + |DoBody(s, l)|, None, n, fuel, m, d)
    decreases fuel, s, 3, 0
  {
    hide Sound, Reached, HasCode, Off, Addr, ExecInstr, DoCode, Ends, LoopDo, EmitExpr, EmitStmt, StackNeed, WellFormed;
    var cb, cc := EmitStmt(s.body, l, Some(L(DoCmp, l))), EmitExpr(s.cond, l + StmtCount(s.body));
    DoParts(x, k, l, cb, cc);
    var head := [Op(SetupLoop(L(DoEnd, l))), Lab(L(DoTop, l))];
    d := DoSetupLoop(x, n, c, k, head, 0, SetupLoop(L(DoEnd, l)));
    LabelAt(x, k, head, 1);
    assert Outer(d) == c.(ip := d.ip);
    var c2 := d;
    m, d := SimLoopDo(x, s, k, l, n + 1, c2, fuel);
    EndsFrom(x, Outer(c2), c, LoopDo(x.w, s, c.vars, fuel), k + |DoBody(s, l)|, None, n + 1, n, fuel, fuel, m, d);
  }

  lemma NeedsOfDo(s: Stmt)
    requires s.Do?
    ensures ExprNeed(s.cond) <= StackNeed(s) && StackNeed(s.body) <= StackNeed(s) && BlockNeed(s.body) < BlockNeed(s)
    ensures WellFormed(s, false) ==> WellFormed(s.body, true)
  {
  }

  lemma {:induction false} SimLoopDo(x: Ctx, s: Stmt, k: nat, l: nat, n: nat, c: Vm, fuel: nat)
    returns (m: nat, d: Vm)
    requires DoAt(x, s, k, l) && InLoop(x, s, Addr(x.p, L(DoEnd, l)), c) && Here(x, n, c, k + 2)
    ensures Ends(x, Outer(c), LoopDo(x.w, s, c.vars, fuel), k + |DoBody(s, l)|, None, n, fuel, m, d)
    decreases fuel, s, 2, 0
  {
    hide Sound, Reached, HasCode, Off, Addr, ExecInstr, DoCode, EmitExpr, EmitStmt, Exec, Eval, StackNeed, BlockNeed, ExprNeed, WellFormed;
    var here, lc := Some(L(DoCmp, l)), l + StmtCount(s.body);
    var cb, cc := EmitStmt(s.body, l, here), EmitExpr(s.cond, lc);
    DoParts(x, k, l, cb, cc);
    NeedsOfDo(s);
    var k1, k2 := k + 3 + |cb|, k + 3 + |cb| + |cc|;
    m, d := SimStmt(x, s.body, k + 2, l, here, n, c, fuel);
    var o := Exec(x.w, s.body, c.vars, fuel);
    if Again(o) {
      if o.Continued? {
        d := Resumes(x, c, o, k1 - 1, here, n, fuel, m, d);
        m := m + 1;
      }
      var c2 := d;
      m, d := SimDoCheck(x, s, k, l, m, c2, fuel);
      EndsFrom(x, Outer(c2), Outer(c), DoCheck(x.w, s, o.vars, fuel), k + |DoBody(s, l)|, None, n, n, fuel, fuel, m, d);
    } else if o.BrokeElse? {
      d := Restarts(x, c, o, k1 - 1, here, n, fuel, m, d, k + |DoBody(s, l)|);
      m := m + 1;
    } else {
      m, d := Escapes(x, c, o, k1 - 1, here, n, fuel, m, d, k2, DoTail(l), 6);
    }
  }

  function DoTail(l: nat): Snippet {
    [Op(JumpIfFalse(L(DoPreEnd, l))), Op(PopTop), Op(JumpAbsolute(L(DoTop, l))),
     Lab(L(DoPreEnd, l)), Op(PopTop), Lab(L(DoEnd, l)), Op(PopBlock)]
  }

  lemma {:induction false} SimDoCheck(x: Ctx, s: Stmt, k: nat, l: nat, n: nat, c: Vm, fuel: nat)
    returns (m: nat, d: Vm)
    requires DoAt(x, s, k, l) && InLoop(x, s, Addr(x.p, L(DoEnd, l)), c)
    requires Here(x, n, c, k + 3 + |EmitStmt(s.body, l, Some(L(DoCmp, l)))|)
    ensures Ends(x, Outer(c), DoCheck(x.w, s, c.vars, fuel), k + |DoBody(s, l)|, None, n, fuel, m, d)
    decreases fuel, s, 1, 0
  {
    hide Sound, Reached, HasCode, Off, Addr, ExecInstr, DoCode, EmitExpr, EmitStmt, LoopDo, Eval, StackNeed, BlockNeed, ExprNeed, WellFormed;
    var lc, tail := l + StmtCount(s.body), DoTail(l);
    var cb, cc := EmitStmt(s.body, l, Some(L(DoCmp, l))), EmitExpr(s.cond, lc);
    DoParts(x, k, l, cb, cc);
    NeedsOfDo(s);
    var k1, k2 := k + 3 + |cb|, k + 3 + |cb| + |cc|;
    m, d := SimExpr(x, s.cond, k1, lc, n, c);
    var r := Eval(x.w, s.cond, c.vars);
    if !r.Ok? {
      EndsFailure(x, c, r, k2, None, n, fuel, m, d, k2);
      m, d := Escapes(x, c, Failure(c.vars, r), k2, None, n, fuel, m, d, k2, tail, 6);
      return;
    }
    assert (c.stack + [r.v])[..|c.stack|] == c.stack;
    d := DoTest(x, m, d, k2, tail, 0, JumpIfFalse(L(DoPreEnd, l)));
    if Truth(x.w, r.v) {
      d := DoPop(x, m + 1, d, k2, tail, 1);
      d := DoJump(x, m + 2, d, k2, tail, 2, L(DoTop, l));
      m := m + 3;
      if fuel == 0 { return; }
      var m2, c2 := m, d;
      m, d := SimLoopDo(x, s, k, l, m2, c2, fuel - 1);
      EndsFrom(x, Outer(c2), Outer(c), LoopDo(x.w, s, c.vars, fuel - 1), k + |DoBody(s, l)|, None, m2, n, fuel - 1, fuel, m, d);
    } else {
      d := DoPop(x, m + 1, d, k2, tail, 4);
      d := DoPopBlock(x, m + 2, d, k2, tail, 6);
      m := m + 3;
    }
  }

  // ----- for -----

  function ForStepLabels(s: Stmt, l: nat): (r: (nat, nat, nat, Option<Label>))
    requires s.For?
  {
    var lc := l + InitCount(s.init);
    var lb := lc + ExprCount(s.cond);
    (lc, lb, lb + StmtCount(s.body), Kept(Some(L(ForIncdec, l)), Drift(s.body)))
  }

  /** The code of the parts of for loop number l: init, test, body, step. */
  function ForPieces(s: Stmt, l: nat): (r: (Snippet, Snippet, Snippet, Snippet))
    requires s.For?
  {
    var (lc, lb, ls, cs) := ForStepLabels(s, l);
    (EmitInit(s.init, l), EmitExpr(s.cond, lc), EmitStmt(s.body, lb, Some(L(ForIncdec, l))), EmitStmt(s.step, ls, cs))
  }

  function ForBody(s: Stmt, l: nat): Snippet
    requires s.For?
  {
    var (ci, cc, cb, cs) := ForPieces(s, l);
    ForCode(l, ci, cc, cb, cs)
  }

  function ForTail(l: nat): Snippet {
    [Op(JumpAbsolute(L(ForTest, l))), Lab(L(ForPreEnd, l)), Op(PopTop), Lab(L(ForEnd, l)), Op(PopBlock)]
  }

  ghost predicate ForAt(x: Ctx, s: Stmt, k: nat, l: nat) {
    s.For? && Sound(x) && HasCode(x.p, k, ForBody(s, l)) && WellFormed(s, false)
  }

  lemma {:induction false} SimFor(x: Ctx, s: Stmt, k: nat, l: nat, cont: Option<Label>, n: nat, c: Vm, fuel: nat)
    returns (m: nat, d: Vm)
    requires s.For? && WellFormed(s, cont.Some?) && Room(x, c, s)
    requires Here(x, n, c, k) && HasCode(x.p, k, EmitStmt(s, l, cont))
    ensures Ends(x, c, Exec(x.w, s, c.vars, fuel), k + |EmitStmt(s, l, cont)|, cont, n, fuel, m, d)
    decreases fuel, s, 3, 1
  {
    hide Sound, Reached, HasCode, Off, Addr, ExecInstr, ForCode, Ends, LoopFor, ExecAssign;
    assert EmitStmt(s, l, cont) == ForBody(s, l + 1);
    m, d := SimForEnter(x, s, k, l + 1, n, c, fuel);
    EndsAnyCont(x, c, Exec(x.w, s, c.vars, fuel), k + |ForBody(s, l + 1)|, cont, n, fuel, m, d);
  }

  lemma {:induction false} SimForEnter(x: Ctx, s: Stmt, k: nat, l: nat, n: nat, c: Vm, fuel: nat)
    returns (m: nat, d: Vm)
    requires ForAt(x, s, k, l) && Room(x, c, s) && Here(x, n, c, k)
    ensures Ends(x, c, Exec(x.w, s, c.vars, fuel), k + |ForBody(s, l)|, None, n, fuel, m, d)
    decreases fuel, s, 3, 0
  {
    hide Sound, Reached, HasCode, Off, Addr, ExecInstr, ForCode, LoopFor, EmitExpr, EmitStmt, EmitAssign, ExecAssign, AssignNeed;
    var (ci, cc, cb, cs) := ForPieces(s, l);
    ForParts(x, k, l, ci, cc, cb, cs);
    m, d := n, c;
    if s.init.Some? {
      m, d := SimAssign(x, s.init.value, 0, k + 1, l, n, c);
      if !ExecAssign(x.w, s.init.value, c.vars).r.Ok? { return; }
      assert c.stack + [] == c.stack;
    }
    var k1 := k + 3 + |ci|;
    d := DoSetupLoop(x, m, d, k1 - 2, [Op(SetupLoop(L(ForEnd, l))), Lab(L(ForTest, l))], 0, SetupLoop(L(ForEnd, l)));
    LabelAt(x, k1 - 2, [Op(SetupLoop(L(ForEnd, l))), Lab(L(ForTest, l))], 1);
    var m2, c2 := m + 1, d;
    m, d := SimLoopFor(x, s, k, l, m2, c2, fuel);
    EndsFrom(x, Outer(c2), c, LoopFor(x.w, s, c2.vars, fuel), k + |ForBody(s, l)|, None, m2, n, fuel, fuel, m, d);
  }

  lemma NeedsOfFor(s: Stmt)
    requires s.For?
    ensures ExprNeed(s.cond) <= StackNeed(s)
    ensures StackNeed(s.body) <= StackNeed(s) && BlockNeed(s.body) < BlockNeed(s)
    ensures StackNeed(s.step) <= StackNeed(s) && BlockNeed(s.step) < BlockNeed(s)
    ensures WellFormed(s, false) ==> WellFormed(s.body, true) && WellFormed(s.step, Drift(s.body) == 0)
  {
  }

  /** The loop from its test on. */
  lemma {:induction false} SimLoopFor(x: Ctx, s: Stmt, k: nat, l: nat, n: nat, c: Vm, fuel: nat)
    returns (m: nat, d: Vm)
    requires ForAt(x, s, k, l) && InLoop(x, s, Addr(x.p, L(ForEnd, l)), c) && Here(x, n, c, k + 3 + |ForPieces(s, l).0|)
    ensures Ends(x, Outer(c), LoopFor(x.w, s, c.vars, fuel), k + |ForBody(s, l)|, None, n, fuel, m, d)
    decreases fuel, s, 2, 1
  {
    hide Sound, Reached, HasCode, Off, Addr, ExecInstr, ForCode, EmitInit, EmitExpr, EmitStmt, Eval, StackNeed, BlockNeed, ExprNeed, WellFormed, ForRound;
    var (lc, lb, ls, here) := ForStepLabels(s, l);
    var (ci, cc, cb, cs) := ForPieces(s, l);
    ForParts(x, k, l, ci, cc, cb, cs);
    NeedsOfFor(s);
    var k1 := k + 3 + |ci|;
    var k2 := k1 + |cc|;
    var k4 := k2 + 3 + |cb| + |cs|;
    var test := [Op(JumpIfFalse(L(ForPreEnd, l))), Op(PopTop)];
    m, d := SimExpr(x, s.cond, k1, lc, n, c);
    var r := Eval(x.w, s.cond, c.vars);
    if !r.Ok? {
      EndsFailure(x, c, r, k2, None, n, fuel, m, d, k2);
      m, d := Escapes(x, c, Failure(c.vars, r), k2, None, n, fuel, m, d, k4, ForTail(l), 4);
      return;
    }
    assert (c.stack + [r.v])[..|c.stack|] == c.stack;
    d := DoTest(x, m, d, k2, test, 0, JumpIfFalse(L(ForPreEnd, l)));
    if Truth(x.w, r.v) {
      d := DoPop(x, m + 1, d, k2, test, 1);
      var m2, c2 := m + 2, d;
      m, d := SimForRound(x, s, k, l, m2, c2, fuel);
      EndsFrom(x, Outer(c2), Outer(c), ForRound(x.w, s, c.vars, fuel), k + |ForBody(s, l)|, None, m2, n, fuel, fuel, m, d);
    } else {
      d := DoPop(x, m + 1, d, k4, ForTail(l), 2);
      d := DoPopBlock(x, m + 2, d, k4, ForTail(l), 4);
      m := m + 3;
    }
  }

  lemma {:induction false} SimForRound(x: Ctx, s: Stmt, k: nat, l: nat, n: nat, c: Vm, fuel: nat)
    returns (m: nat, d: Vm)
    requires ForAt(x, s, k, l) && InLoop(x, s, Addr(x.p, L(ForEnd, l)), c)
    requires Here(x, n, c, k + 5 + |ForPieces(s, l).0| + |ForPieces(s, l).1|)
    ensures Ends(x, Outer(c), ForRound(x.w, s, c.vars, fuel), k + |ForBody(s, l)|, None, n, fuel, m, d)
    decreases fuel, s, 2, 0
  {
    hide Sound, Reached, HasCode, Off, Addr, ExecInstr, ForCode, EmitInit, EmitExpr, EmitStmt, Exec, StackNeed, BlockNeed, ExprNeed, WellFormed, ForStep;
    var (lc, lb, ls, cont) := ForStepLabels(s, l);
    var (ci, cc, cb, cs) := ForPieces(s, l);
    var here := Some(L(ForIncdec, l));
    ForParts(x, k, l, ci, cc, cb, cs);
    NeedsOfFor(s);
    var k2 := k + 3 + |ci| + |cc|;
    var k3 := k2 + 2 + |cb|;
    m, d := SimStmt(x, s.body, k2 + 2, lb, here, n, c, fuel);
    var o := Exec(x.w, s.body, c.vars, fuel);
    if Again(o) {
      if o.Continued? {
        d := Resumes(x, c, o, k3, here, n, fuel, m, d);
        m := m + 1;
      }
      var c2 := d;
      m, d := SimForStep(x, s, k, l, m, c2, fuel);
      EndsFrom(x, Outer(c2), Outer(c), ForStep(x.w, s, o.vars, fuel), k + |ForBody(s, l)|, None, n, n, fuel, fuel, m, d);
    } else if o.BrokeElse? {
      d := Restarts(x, c, o, k3, here, n, fuel, m, d, k + |ForBody(s, l)|);
      m := m + 1;
    } else {
      m, d := Escapes(x, c, o, k3, here, n, fuel, m, d, k3 + 1 + |cs|, ForTail(l), 4);
    }
  }

  lemma {:induction false} SimForStep(x: Ctx, s: Stmt, k: nat, l: nat, n: nat, c: Vm, fuel: nat)
    returns (m: nat, d: Vm)
    requires ForAt(x, s, k, l) && InLoop(x, s, Addr(x.p, L(ForEnd, l)), c)
    requires Here(x, n, c, k + 6 + |ForPieces(s, l).0| + |ForPieces(s, l).1| + |ForPieces(s, l).2|)
    ensures Ends(x, Outer(c), ForStep(x.w, s, c.vars, fuel), k + |ForBody(s, l)|, None, n, fuel, m, d)
    decreases fuel, s, 1, 0
  {
    hide Sound, Reached, HasCode, Off, Addr, ExecInstr, ForCode, EmitInit, EmitExpr, EmitStmt, Exec, StackNeed, BlockNeed, ExprNeed, WellFormed, LoopFor;
    var (lc, lb, ls, cont) := ForStepLabels(s, l);
    var (ci, cc, cb, cs) := ForPieces(s, l);
    ForParts(x, k, l, ci, cc, cb, cs);
    NeedsOfFor(s);
    var k3, end := k + 5 + |ci| + |cc| + |cb|, k + |ForBody(s, l)|;
    var k4 := k3 + 1 + |cs|;
    m, d := SimStmt(x, s.step, k3 + 1, ls, cont, n, c, fuel);
    var o := Exec(x.w, s.step, c.vars, fuel);
    if Again(o) {
      if o.Normal? {
        d := DoJump(x, m, d, k4, ForTail(l), 0, L(ForTest, l));
      } else {
        d := Resumes(x, c, o, k4, cont, n, fuel, m, d);
      }
      m := m + 1;
      if fuel == 0 { return; }
      var m2, c2 := m, d;
      if o.Normal? {
        m, d := SimLoopFor(x, s, k, l, m2, c2, fuel - 1);
        EndsFrom(x, Outer(c2), Outer(c), LoopFor(x.w, s, o.vars, fuel - 1), end, None, m2, n, fuel - 1, fuel, m, d);
      } else {
        m, d := SimForStep(x, s, k, l, m2, c2, fuel - 1);
        EndsFrom(x, Outer(c2), Outer(c), ForStep(x.w, s, o.vars, fuel - 1), end, None, m2, n, fuel - 1, fuel, m, d);
      }
    } else if o.BrokeElse? {
      d := Restarts(x, c, o, k4, cont, n, fuel, m, d, end);
      m := m + 1;
    } else {
      m, d := Escapes(x, c, o, k4, cont, n, fuel, m, d, k4, ForTail(l), 4);
    }
  }

  // ----- try -----

  /** The code of the parts of try number l, and the counter before each: body, catches, finally. */
  function TryPieces(s: Stmt, l: nat, cont: Option<Label>): (r: (Snippet, Snippet, Snippet))
    requires s.Try?
  {
    var l1 := l + StmtCount(s.body);
    (EmitStmt(s.body, l, cont), EmitCatches(s.catches, 0, l, l1, Kept(cont, Drift(s.body))),
     EmitStmt(s.fin, l1 + CatchesCount(s.catches), Kept(cont, Drift(s.body) + DriftCatches(s.catches))))
  }

  function TryBody(s: Stmt, l: nat, cont: Option<Label>): Snippet
    requires s.Try?
  {
    var (cb, ch, cf) := TryPieces(s, l, cont);
    TryCode(l, cb, ch, cf)
  }

  ghost predicate TryAt(x: Ctx, s: Stmt, k: nat, l: nat, cont: Option<Label>) {
    s.Try? && Sound(x) && HasCode(x.p, k, TryBody(s, l, cont)) && WellFormed(s, cont.Some?)
  }

  /** What lies above base while the finally part runs. */
  function Held(p: After): seq<Value> {
    match p
    case Nothing => [Num(REASON_FINALLY)]
    case Returning(v) => [Num(REASON_FINALLY), v, Num(REASON_RETURN)]
    case Unmatched(y) => [Num(REASON_FINALLY), y]
  }

  /** The innermost block is that of the try s, entered with base on the stack. */
  predicate Trying(x: Ctx, s: Stmt, l: nat, base: seq<Value>, c: Vm) {
    && |base| + StackNeed(s) <= x.size && c.blocks != [] && |c.blocks| - 1 + BlockNeed(s) <= BLOCK_MAX_DEPTH
    && c.blocks[|c.blocks| - 1]
       == ExceptBlock(Addr(x.p, L(TryCatch, l)), Addr(x.p, L(TryFinally, l)), Addr(x.p, L(TryEndFinally, l)), |base|, false)
  }

  lemma NeedsOfTry(s: Stmt, cont: bool)
    requires s.Try?
    ensures StackNeed(s) >= 5 && 1 + StackNeed(s.body) <= StackNeed(s) && BlockNeed(s.body) < BlockNeed(s)
    ensures 3 + StackNeed(s.fin) <= StackNeed(s) && BlockNeed(s.fin) < BlockNeed(s)
    ensures CatchesStackNeed(s.catches) <= StackNeed(s) && CatchesBlockNeed(s.catches) < BlockNeed(s)
    ensures WellFormed(s, cont) ==>
      && WellFormed(s.body, cont) && WellFormedCatches(s.catches, cont && Drift(s.body) == 0)
      && WellFormed(s.fin, cont && Drift(s.body) + DriftCatches(s.catches) == 0)
  {
  }

  lemma {:induction false} SimTry(x: Ctx, s: Stmt, k: nat, l: nat, cont: Option<Label>, n: nat, c: Vm, fuel: nat)
    returns (m: nat, d: Vm)
    requires s.Try? && WellFormed(s, cont.Some?) && Room(x, c, s)
    requires Here(x, n, c, k) && HasCode(x.p, k, EmitStmt(s, l, cont))
    ensures Ends(x, c, Exec(x.w, s, c.vars, fuel), k + |EmitStmt(s, l, cont)|, cont, n, fuel, m, d)
    decreases fuel, s, 3, 1
  {
    hide Sound, Reached, HasCode, Off, Addr, ExecInstr, TryCode, Ends, Concluded, Handle, WellFormed, StackNeed, BlockNeed;
    assert EmitStmt(s, l, cont) == TryBody(s, l + 1, cont);
    m, d := SimTryEnter(x, s, k, l + 1, cont, n, c, fuel);
    EndsAnyCont(x, c, Exec(x.w, s, c.vars, fuel), k + |TryBody(s, l + 1, cont)|, cont, n, fuel, m, d);
  }

  lemma {:induction false} SimTryEnter(x: Ctx, s: Stmt, k: nat, l: nat, cont: Option<Label>, n: nat, c: Vm, fuel: nat)
    returns (m: nat, d: Vm)
    requires TryAt(x, s, k, l, cont) && Room(x, c, s) && Here(x, n, c, k)
    ensures Ends(x, c, Exec(x.w, s, c.vars, fuel), k + |TryBody(s, l, cont)|, None, n, fuel, m, d)
    decreases fuel, s, 3, 0
  {
    hide Sound, Reached, HasCode, Off, Addr, ExecInstr, TryCode, EmitStmt, EmitCatches, Concluded, Handle, WellFormed, StackNeed, BlockNeed, Ends;
    var (cb, ch, cf) := TryPieces(s, l, cont);
    TryParts(x, k, l, cb, ch, cf);
    NeedsOfTry(s, cont.Some?);
    var k1, end := k + 1 + |cb|, k + |TryBody(s, l, cont)|;
    var k2 := k1 + 2 + |ch|;
    var i := SetupExcept(L(TryCatch, l), L(TryFinally, l), L(TryEndFinally, l));
    d := DoSetupExcept(x, n, c, k, [Op(i)], 0, i);
    var c2 := d;
    assert Around(c2, c.stack) == c.(ip := c2.ip);
    m, d := SimStmt(x, s.body, k + 1, l, cont, n + 1, c2, fuel);
    var o := Exec(x.w, s.body, c.vars, fuel);
    if o.Threw? {
      EndedThrowing(x, c2, o, k1, cont, n + 1, fuel, m, d);
      d := Catches(x, m, d, c.stack, o.x);
      var n3, c3 := m + 1, d;
      m, d := SimHandle(x, s, k, l, cont, 0, k1 + 2, l + StmtCount(s.body), Kept(cont, Drift(s.body)), o.x, c.stack, n3, c3, fuel);
      EndsFrom(x, Around(c3, c.stack), c, Handle(x.w, s, 0, c3.vars, o.x, fuel), end, None, n3, n, fuel, fuel, m, d);
    } else {
      m, d := SimConcluded(x, s, k, l, cont, c.stack, k1, [Op(JumpForward(L(TryFinally, l))), Lab(L(TryCatch, l))], cont, n + 1, c2, o, m, d, fuel);
      EndsFrom(x, Around(c2, c.stack), c, Concluded(x.w, s, o, fuel), end, None, n + 1, n, fuel, fuel, m, d);
    }
  }

  /** The try block or a handler, entered in c, has ended with o before line j, a jump to the finally part. */
  lemma {:induction false} SimConcluded(x: Ctx, s: Stmt, k: nat, l: nat, cont: Option<Label>, base: seq<Value>, j: nat, code: seq<Line>,
                                        cc: Option<Label>, n: nat, c: Vm, o: Outcome, m0: nat, d0: Vm, fuel: nat)
    returns (m: nat, d: Vm)
    requires TryAt(x, s, k, l, cont) && Trying(x, s, l, base, c) && c.stack == base + [Num(REASON_FINALLY)] && Live(c)
    requires HasCode(x.p, j, code) && code != [] && code[0] == Code(JumpForward(L(TryFinally, l)))
    requires j <= k + 5 + |TryPieces(s, l, cont).0| + |TryPieces(s, l, cont).1|
    requires Ends(x, c, o, j, cc, n, fuel, m0, d0) && !o.Threw?
    ensures Ends(x, Around(c, base), Concluded(x.w, s, o, fuel), k + |TryBody(s, l, cont)|, None, n, fuel, m, d)
    decreases fuel, s, 1, 2
  {
    hide Sound, Reached, HasCode, Off, Addr, ExecInstr, TryCode, EmitStmt, EmitCatches, Finish, WellFormed, StackNeed, BlockNeed, Ends;
    var (cb, ch, cf) := TryPieces(s, l, cont);
    TryParts(x, k, l, cb, ch, cf);
    NeedsOfTry(s, cont.Some?);
    var k2, end := k + 3 + |cb| + |ch|, k + |TryBody(s, l, cont)|;
    m, d := m0, d0;
    if o.Normal? || o.Returned? {
      var p := if o.Normal? then Nothing else Returning(o.v);
      if o.Normal? {
        EndedNormally(x, c, o, j, cc, n, fuel, m, d);
        d := DoJump(x, m, d, j, code, 0, L(TryFinally, l));
      } else {
        EndedReturning(x, c, o, j, cc, n, fuel, m, d);
        OffMonotone(x.p, j, k2 + 2);
        d := Delays(x, m, d, base, o.v);
      }
      var n2, c2 := m + 1, d;
      assert c2.stack == base + Held(p);
      m, d := SimFinish(x, s, k, l, cont, p, base, n2, c2, fuel);
      EndsFrom(x, Around(c2, base), Around(c, base), Finish(x.w, s, o.vars, p, fuel), end, None, n2, n, fuel, fuel, m, d);
    } else if o.Broke? || o.BrokeElse? || o.Continued? {
      EndedJumping(x, c, o, j, cc, n, fuel, m, d);
      d := Hangs(x, m, d, base);
      m := m + 1;
      EndsLeft(x, Around(c, base), end, None, n, fuel, m, d);
    } else {
      assert Around(c, base).stack <= c.stack && Around(c, base).blocks <= c.blocks;
      EndsFinal(x, c, Around(c, base), o, j, end, cc, None, n, n, fuel, m, d);
    }
  }

  /** The finally part, and what END_FINALLY makes of what was left for it. */
  lemma {:induction false} SimFinish(x: Ctx, s: Stmt, k: nat, l: nat, cont: Option<Label>, p: After, base: seq<Value>,
                                     n: nat, c: Vm, fuel: nat)
    returns (m: nat, d: Vm)
    requires TryAt(x, s, k, l, cont) && Trying(x, s, l, base, c) && c.stack == base + Held(p)
    requires Here(x, n, c, k + 6 + |TryPieces(s, l, cont).0| + |TryPieces(s, l, cont).1|)
    ensures Ends(x, Around(c, base), Finish(x.w, s, c.vars, p, fuel), k + |TryBody(s, l, cont)|, None, n, fuel, m, d)
    decreases fuel, s, 1, 1
  {
    hide Sound, Reached, HasCode, Off, Addr, ExecInstr, TryCode, EmitStmt, EmitCatches, Exec, Handle, Ended, WellFormed, StackNeed, BlockNeed, Ends;
    var (cb, ch, cf) := TryPieces(s, l, cont);
    TryParts(x, k, l, cb, ch, cf);
    NeedsOfTry(s, cont.Some?);
    var k2, end := k + 3 + |cb| + |ch|, k + |TryBody(s, l, cont)|;
    var k3 := k2 + 3 + |cf|;
    var lf, kept := l + StmtCount(s.body) + CatchesCount(s.catches), Kept(cont, Drift(s.body) + DriftCatches(s.catches));
    assert InTry(c, base);
    m, d := SimStmt(x, s.fin, k2 + 3, lf, kept, n, c, fuel);
    var o := Exec(x.w, s.fin, c.vars, fuel);
    if o.Normal? {
      EndedNormally(x, c, o, k3, kept, n, fuel, m, d);
      var n2, c2 := m, d;
      m, d := SimEnded(x, s, k, l, cont, p, base, n2, c2, fuel);
      EndsFrom(x, Around(c2, base), Around(c, base), Ended(x.w, s, o.vars, p, fuel), end, None, n2, n, fuel, fuel, m, d);
    } else if o.Threw? {
      EndedThrowing(x, c, o, k3, kept, n, fuel, m, d);
      var n2, c2 := m, d;
      m, d := SimRethrow(x, s, k, l, cont, o.x, base, n2, c2, fuel);
      EndsFrom(x, Calm(c2, base), Around(c, base), Rethrow(x.w, s, o, fuel), end, None, n2, n, fuel, fuel, m, d);
    } else {
      m, d := LeavesOrHangs(x, c, o, k3, kept, n, fuel, m, d, base, end);
    }
  }

  /** The machine state around the try, once an exception in it has been dealt with. */
  function Calm(d: Vm, base: seq<Value>): Vm
    requires d.blocks != []
  {
    Around(d, base).(reason := REASON_NONE)
  }

  /** What END_FINALLY does with what is held for it. */
  lemma Released(w: World, c: Vm, p: After, base: seq<Value>)
    requires c.stack == base + Held(p)
    ensures EndFinallyStep(w, c) ==
            if p.Nothing? then c.(stack := base, ret := Some(Num(REASON_FINALLY)), reason := REASON_FINALLY)
            else
              var d := c.(stack := base + [Num(REASON_FINALLY)]);
              if p.Returning? then d.(ret := Some(p.v), reason := REASON_RETURN)
              else if p.x.Exc? then d.(ret := None, reason := REASON_RERAISE)
              else Raised(d.(ret := Some(p.x)), w.strayFinally)
  {
    var s := c.stack[..|c.stack| - 1];
    assert s == base + Held(p)[..|Held(p)| - 1];
    if p.Nothing? { assert s == base; } else if p.Returning? { assert s[..|s| - 1] == base + [Num(REASON_FINALLY)]; }
  }

  lemma TopHeld(c: Vm, p: After, base: seq<Value>)
    requires c.stack == base + Held(p)
    ensures c.stack != [] && |base| + Pops(Instr<Label>.EndFinally, c) <= |c.stack|
  {
  }

  lemma {:induction false} SimEnded(x: Ctx, s: Stmt, k: nat, l: nat, cont: Option<Label>, p: After, base: seq<Value>,
                                    n: nat, c: Vm, fuel: nat)
    returns (m: nat, d: Vm)
    requires TryAt(x, s, k, l, cont) && Trying(x, s, l, base, c) && c.stack == base + Held(p)
    requires Here(x, n, c, k + 6 + |TryPieces(s, l, cont).0| + |TryPieces(s, l, cont).1| + |TryPieces(s, l, cont).2|)
    ensures Ends(x, Around(c, base), Ended(x.w, s, c.vars, p, fuel), k + |TryBody(s, l, cont)|, None, n, fuel, m, d)
    decreases fuel, s, 1, 0
  {
    hide Sound, Reached, HasCode, Off, Addr, ExecInstr, TryCode, EmitStmt, EmitCatches, Rethrow, WellFormed, StackNeed, BlockNeed, Ends, EndFinallyStep, Held, TryPieces;
    var (cb, ch, cf) := TryPieces(s, l, cont);
    TryParts(x, k, l, cb, ch, cf);
    NeedsOfTry(s, cont.Some?);
    var k2, end := k + 3 + |cb| + |ch|, k + |TryBody(s, l, cont)|;
    var k3 := k2 + 3 + |cf|;
    Released(x.w, c.(ip := Off(x.p, k3 + 2)), p, base);
    TopHeld(c, p, base);
    d := DoEndFinally(x, n, c, k3, [Lab(L(TryEndFinally, l)), Op(EndFinally)], 1);
    m := n + 1;
    match p
    case Nothing =>
      assert d.stack == base;
      d := Unwind(x, m, d);
      m := m + 1;
      EndsNormal(x, Around(c, base), end, None, n, fuel, m, d);
    case Returning(v) =>
      assert d.stack == base + [Num(REASON_FINALLY)];
      OffMonotone(x.p, k2 + 3, k3 + 1);
      d := Leaves(x, m, d, base, v);
      m := m + 1;
      EndsLeft(x, Around(c, base), end, None, n, fuel, m, d);
    case Unmatched(y) =>
      assert d.stack == base + [Num(REASON_FINALLY)];
      if y.Exc? {
        d := Hangs(x, m, d, base);
        m := m + 1;
        EndsLeft(x, Around(c, base), end, None, n, fuel, m, d);
      } else {
        var n2, c2 := m, d;
        m, d := SimRethrow(x, s, k, l, cont, x.w.strayFinally, base, m, c2, fuel);
        EndsFrom(x, Calm(c2, base), Around(c, base), Ended(x.w, s, c.vars, p, fuel), end, None, n2, n, fuel, fuel, m, d);
      }
  }

  /** An exception in a handler or in the finally part starts over with the first catch. */
  lemma {:induction false} SimRethrow(x: Ctx, s: Stmt, k: nat, l: nat, cont: Option<Label>, y: Thrown, base: seq<Value>,
                                      n: nat, c: Vm, fuel: nat)
    returns (m: nat, d: Vm)
    requires TryAt(x, s, k, l, cont) && Trying(x, s, l, base, c) && InTry(c, base)
    requires Reached(x, n, c) && c.status.Running? && c.reason == REASON_EXCEPTION && c.exc == Some(y)
    ensures Ends(x, Calm(c, base), Rethrow(x.w, s, Threw(c.vars, y), fuel), k + |TryBody(s, l, cont)|, None, n, fuel, m, d)
    decreases fuel, s, 0, 0
  {
    hide Sound, Reached, HasCode, Off, Addr, ExecInstr, TryCode, EmitStmt, EmitCatches, Handle, WellFormed, StackNeed, BlockNeed;
    m, d := n, c;
    if fuel > 0 {
      var (cb, ch, cf) := TryPieces(s, l, cont);
      TryParts(x, k, l, cb, ch, cf);
      NeedsOfTry(s, cont.Some?);
      d := Catches(x, n, c, base, y);
      var c2 := d;
      assert c2.stack == base + [Num(REASON_FINALLY), y] + [];
      m, d := SimHandle(x, s, k, l, cont, 0, k + 3 + |cb|, l + StmtCount(s.body), Kept(cont, Drift(s.body)), y, base, n + 1, c2, fuel - 1);
      EndsFrom(x, Around(c2, base), Calm(c, base), Handle(x.w, s, 0, c.vars, y, fuel - 1), k + |TryBody(s, l, cont)|, None,
               n + 1, n, fuel - 1, fuel, m, d);
    }
  }

  /** The catches from number i on, whose code stands at kc.  When an earlier catch did not match, its
      truth value is still on the stack. */
  lemma {:induction false} SimHandle(x: Ctx, s: Stmt, k: nat, l: nat, cont: Option<Label>, i: nat, kc: nat, lc: nat, cc: Option<Label>,
                                     y: Thrown, base: seq<Value>, n: nat, c: Vm, fuel: nat)
    returns (m: nat, d: Vm)
    requires TryAt(x, s, k, l, cont) && Trying(x, s, l, base, c) && i <= |s.catches|
    requires CatchesAt(x, s, k, l, cont, i, kc, lc, cc)
    requires c.stack == base + [Num(REASON_FINALLY), y] + (if i == 0 then [] else [Bool(false)])
    requires Here(x, n, c, kc)
    ensures Ends(x, Around(c, base), Handle(x.w, s, i, c.vars, y, fuel), k + |TryBody(s, l, cont)|, None, n, fuel, m, d)
    decreases fuel, s, 2, |s.catches| - i
  {
    hide Sound, Reached, HasCode, Off, Addr, ExecInstr, TryCode, EmitStmt, Finish, Rethrow, WellFormed, StackNeed, BlockNeed, CatchCode, Ends;
    var (cb, ch, cf) := TryPieces(s, l, cont);
    TryParts(x, k, l, cb, ch, cf);
    NeedsOfTry(s, cont.Some?);
    var k2, end := k + 3 + |cb| + |ch|, k + |TryBody(s, l, cont)|;
    if i == |s.catches| {
      var tail := [Op(PopTop), Op(JumpForward(L(TryFinally, l))), Lab(L(TryFinally, l))];
      var p := if s.catches == [] then Nothing else Unmatched(y);
      d := DoPop(x, n, c, k2, tail, 0);
      assert d.stack == base + Held(p);
      d := DoJump(x, n + 1, d, k2, tail, 1, L(TryFinally, l));
      var c2 := d;
      m, d := SimFinish(x, s, k, l, cont, p, base, n + 2, c2, fuel);
      EndsFrom(x, Around(c2, base), Around(c, base), Finish(x.w, s, c.vars, p, fuel), end, None, n + 2, n, fuel, fuel, m, d);
    } else {
      m, d := SimCatch(x, s, k, l, cont, i, kc, lc, cc, y, base, n, c, fuel);
    }
  }

  ghost predicate CatchesAt(x: Ctx, s: Stmt, k: nat, l: nat, cont: Option<Label>, i: nat, kc: nat, lc: nat, cc: Option<Label>)
    requires s.Try? && i <= |s.catches|
  {
    && HasCode(x.p, kc, EmitCatches(s.catches[i..], i, l, lc, cc)) && WellFormedCatches(s.catches[i..], cc.Some?)
    && kc + |EmitCatches(s.catches[i..], i, l, lc, cc)| == k + 3 + |TryPieces(s, l, cont).0| + |TryPieces(s, l, cont).1|
  }

  lemma {:induction false} SimCatch(x: Ctx, s: Stmt, k: nat, l: nat, cont: Option<Label>, i: nat, kc: nat, lc: nat, cc: Option<Label>,
                                    y: Thrown, base: seq<Value>, n: nat, c: Vm, fuel: nat)
    returns (m: nat, d: Vm)
    requires TryAt(x, s, k, l, cont) && Trying(x, s, l, base, c) && i < |s.catches|
    requires CatchesAt(x, s, k, l, cont, i, kc, lc, cc)
    requires c.stack == base + [Num(REASON_FINALLY), y] + (if i == 0 then [] else [Bool(false)])
    requires Here(x, n, c, kc)
    ensures Ends(x, Around(c, base), Handle(x.w, s, i, c.vars, y, fuel), k + |TryBody(s, l, cont)|, None, n, fuel, m, d)
    decreases fuel, s, 2, |s.catches| - i, 0
  {
    hide Sound, Reached, HasCode, Off, Addr, ExecInstr, TryCode, TryBody, EmitStmt, Concluded, Rethrow, WellFormed, StackNeed, BlockNeed, CatchCode, Ends, Lookup, EmitCatches, StmtCount, Drift, CatchesCount;
    var h := s.catches[i];
    var hb := EmitStmt(h.body, lc, cc);
    NeedsOfTry(s, cont.Some?);
    CatchNext(x, s, k, l, cont, i, kc, lc, cc);
    CatchParts(x, kc, l, i, h.classId, h.id, hb);
    var k1, end := kc + (if i != 0 then 1 else 0), k + |TryBody(s, l, cont)|;
    var mark := base + [Num(REASON_FINALLY)];
    m, d := n, c;
    assert c.stack == mark + [y] + (if i == 0 then [] else [Bool(false)]);
    if i != 0 {
      assert c.stack[..|c.stack| - 1] == mark + [y];
      d := DoPop(x, n, c, kc, [Op(PopTop)], 0);
      m := n + 1;
    }
    assert d.stack == mark + [y];
    var c2 := d;
    m, d := SimMatch(x, k1, l, i, h, hb, mark, y, m, c2);
    c2 := d;
    var n2 := m;
    var cl := Lookup(x.w, c.vars, h.classId);
    if !cl.Ok? {
      m, d := SimRethrow(x, s, k, l, cont, cl.x, base, m, c2, fuel);
      EndsFrom(x, Calm(c2, base), Around(c, base), Rethrow(x.w, s, Threw(c.vars, cl.x), fuel), end, None, n2, n, fuel, fuel, m, d);
    } else if !x.w.isInstance(y, cl.v) {
      assert c2.stack == base + [Num(REASON_FINALLY), y] + [Bool(false)];
      m, d := SimHandle(x, s, k, l, cont, i + 1, k1 + 9 + |hb|, lc + StmtCount(h.body), Kept(cc, Drift(h.body)), y, base, m, c2, fuel);
      EndsFrom(x, Around(c2, base), Around(c, base), Handle(x.w, s, i + 1, c.vars, y, fuel), end, None, n2, n, fuel, fuel, m, d);
    } else {
      m, d := SimHandler(x, s, k, l, cont, i, k1 + 7, lc, cc, base, m, c2, fuel);
      EndsFrom(x, Around(c2, base), Around(c, base), Handled(x.w, s, i, c2.vars, fuel), end, None, n2, n, fuel, fuel, m, d);
    }
  }

  /** The lines of catch h, number i, before its handler. */
  function MatchCode(l: nat, i: nat, h: Catch): Snippet {
    [Op(DupTop), Op(LoadId(h.classId)), Op(CompareEx), Op(JumpIfFalse(Label(TryNoMatch, l, i))), Op(PopTop),
     Op(StoreId(h.id)), Lab(Label(TryMatch, l, i))]
  }

  /** Whether the exception y, on the stack above mark, is for catch h; if it is, bind it. */
  lemma SimMatch(x: Ctx, k1: nat, l: nat, i: nat, h: Catch, hb: Snippet, mark: seq<Value>, y: Value, n: nat, c: Vm)
    returns (m: nat, d: Vm)
    requires Here(x, n, c, k1) && HasCode(x.p, k1, MatchCode(l, i, h)) && c.stack == mark + [y] && Floor(c) <= |mark| <= x.size - 3
    requires Off(x.p, k1 + 6) == Off(x.p, k1 + 7) && Addr(x.p, Label(TryNoMatch, l, i)) == Off(x.p, k1 + 9 + |hb|)
    ensures m >= n && Reached(x, m, d)
    ensures var cl := Lookup(x.w, c.vars, h.classId);
            if !cl.Ok? then Raising(d, c.(stack := mark), c.vars, cl.x)
            else if x.w.isInstance(y, cl.v) then
              d == c.(ip := Off(x.p, k1 + 7), stack := mark, vars := c.vars[h.id := y])
            else d == c.(ip := Off(x.p, k1 + 9 + |hb|), stack := mark + [y, Bool(false)])
  {
    hide Sound, Reached, HasCode, Off, Addr, ExecInstr, Lookup;
    var code := MatchCode(l, i, h);
    d := DoDup(x, n, c, k1, code, 0);
    d := DoLoad(x, n + 1, d, k1, code, 1, LoadId(h.classId));
    m := n + 2;
    var cl := Lookup(x.w, c.vars, h.classId);
    if cl.Ok? {
      assert d.stack[..|d.stack| - 2] == mark + [y];
      d := DoTwo(x, n + 2, d, k1, code, 2, CompareEx);
      assert d.stack == mark + [y] + [Bool(x.w.isInstance(y, cl.v))];
      d := DoTest(x, n + 3, d, k1, code, 3, JumpIfFalse(Label(TryNoMatch, l, i)));
      m := n + 4;
      if x.w.isInstance(y, cl.v) {
        assert d.stack[..|d.stack| - 1] == mark + [y];
        d := DoPop(x, n + 4, d, k1, code, 4);
        assert d.stack[..|d.stack| - 1] == mark;
        d := DoStore(x, n + 5, d, k1, code, 5, h.id);
        m := n + 6;
      }
    }
  }

  /** The parts of the first of the remaining catches. */
  lemma CatchNext(x: Ctx, s: Stmt, k: nat, l: nat, cont: Option<Label>, i: nat, kc: nat, lc: nat, cc: Option<Label>)
    requires s.Try? && i < |s.catches| && CatchesAt(x, s, k, l, cont, i, kc, lc, cc)
    ensures var h := s.catches[i];
            var code := CatchCode(l, i, h.classId, h.id, EmitStmt(h.body, lc, cc));
            && HasCode(x.p, kc, code) && WellFormed(h.body, cc.Some?)
            && CatchesAt(x, s, k, l, cont, i + 1, kc + |code|, lc + StmtCount(h.body), Kept(cc, Drift(h.body)))
            && 1 + StackNeed(h.body) <= CatchesStackNeed(s.catches) && BlockNeed(h.body) <= CatchesBlockNeed(s.catches)
  {
    hide HasCode, EmitStmt, StackNeed, BlockNeed, CatchCode, TryPieces, WellFormed, Drift, StmtCount;
    var h := s.catches[i];
    var code := CatchCode(l, i, h.classId, h.id, EmitStmt(h.body, lc, cc));
    assert s.catches[i..][1..] == s.catches[i + 1..];
    Split(x.p, kc, code, EmitCatches(s.catches[i + 1..], i + 1, l, lc + StmtCount(h.body), Kept(cc, Drift(h.body))));
    CatchNeeds(s.catches, i);
  }

  lemma {:induction false} CatchNeeds(catches: seq<Catch>, i: nat)
    requires i < |catches|
    ensures 1 + StackNeed(catches[i].body) <= CatchesStackNeed(catches)
    ensures BlockNeed(catches[i].body) <= CatchesBlockNeed(catches)
  {
    if i > 0 { CatchNeeds(catches[1..], i - 1); }
  }

  /** A handler, its variable already bound. */
  lemma {:induction false} SimHandler(x: Ctx, s: Stmt, k: nat, l: nat, cont: Option<Label>, i: nat, kh: nat, lc: nat, cc: Option<Label>,
                                      base: seq<Value>, n: nat, c: Vm, fuel: nat)
    returns (m: nat, d: Vm)
    requires TryAt(x, s, k, l, cont) && Trying(x, s, l, base, c) && i < |s.catches|
    requires var hb := EmitStmt(s.catches[i].body, lc, cc);
             && HasCode(x.p, kh, hb) && WellFormed(s.catches[i].body, cc.Some?)
             && HasCode(x.p, kh + |hb|, [Op(JumpForward(L(TryFinally, l))), Lab(Label(TryNoMatch, l, i))])
             && kh + |hb| <= k + 5 + |TryPieces(s, l, cont).0| + |TryPieces(s, l, cont).1|
    requires 1 + StackNeed(s.catches[i].body) <= CatchesStackNeed(s.catches)
    requires BlockNeed(s.catches[i].body) <= CatchesBlockNeed(s.catches)
    requires c.stack == base + [Num(REASON_FINALLY)] && Here(x, n, c, kh)
    ensures Ends(x, Around(c, base), Handled(x.w, s, i, c.vars, fuel), k + |TryBody(s, l, cont)|, None, n, fuel, m, d)
    decreases fuel, s, 1, 3
  {
    hide Sound, Reached, HasCode, Off, Addr, ExecInstr, TryCode, TryBody, TryPieces, EmitStmt, Concluded, Rethrow, WellFormed, StackNeed, BlockNeed;
    NeedsOfTry(s, cont.Some?);
    var body, end := s.catches[i].body, k + |TryBody(s, l, cont)|;
    var j := kh + |EmitStmt(body, lc, cc)|;
    m, d := SimStmt(x, body, kh, lc, cc, n, c, fuel);
    var o := Exec(x.w, body, c.vars, fuel);
    if o.Threw? {
      var c2 := d;
      m, d := SimRethrow(x, s, k, l, cont, o.x, base, m, c2, fuel);
      EndsFrom(x, Calm(c2, base), Around(c, base), Rethrow(x.w, s, o, fuel), end, None, n, n, fuel, fuel, m, d);
    } else {
      m, d := SimConcluded(x, s, k, l, cont, base, j, [Op(JumpForward(L(TryFinally, l))), Lab(Label(TryNoMatch, l, i))], cc, n, c, o, m, d, fuel);
    }
  }

  // ----- switch -----

  function SwitchBody(s: Stmt, l: nat): Snippet
    requires s.Switch?
  {
    SwitchCode(l, EmitExpr(s.subject, l), EmitCases(s.cases, 0, l, l + ExprCount(s.subject)), |s.cases|, Defaults(s.cases))
  }

  ghost predicate SwitchAt(x: Ctx, s: Stmt, k: nat, l: nat) {
    s.Switch? && s.cases != [] && Sound(x) && HasCode(x.p, k, SwitchBody(s, l)) && WellFormed(s, false)
  }

  /** Where case i of switch number l stands, the code of its test and of its body, and where its body
      begins.  Past the last case, bodies fall out of the switch. */
  function CaseK(s: Stmt, k: nat, l: nat, i: nat): nat
    requires s.Switch? && i <= |s.cases|
  {
    CasePos(s.cases, l, l + ExprCount(s.subject), k + 2 + |EmitExpr(s.subject, l)|, i)
  }

  function CaseL(s: Stmt, l: nat, i: nat): nat
    requires s.Switch? && i <= |s.cases|
  {
    CaseNum(s.cases, l + ExprCount(s.subject), i)
  }

  function TestOf(s: Stmt, l: nat, i: nat): (t: Option<Snippet>)
    requires s.Switch? && i < |s.cases|
    ensures t.Some? == s.cases[i].test.Some?
  {
    if s.cases[i].test.Some? then Some(EmitExpr(s.cases[i].test.value, CaseL(s, l, i))) else None
  }

  function BodyL(s: Stmt, l: nat, i: nat): nat
    requires s.Switch? && i < |s.cases|
  {
    CaseL(s, l, i) + (if s.cases[i].test.Some? then ExprCount(s.cases[i].test.value) else 0)
  }

  function BodyK(s: Stmt, k: nat, l: nat, i: nat): nat
    requires s.Switch? && i <= |s.cases|
  {
    if i == |s.cases| then SwitchEndAt(s, k, l) + 1
    else CaseK(s, k, l, i) + |CaseEntry(l, i, s.cases[i].test.Some?)| + |CaseTestCode(l, i, TestOf(s, l, i))| + 1
  }

  lemma BodyAtEnd(s: Stmt, k: nat, l: nat)
    requires s.Switch?
    ensures BodyK(s, k, l, |s.cases|) == SwitchEndAt(s, k, l) + 1
  {
  }

  /** Where the last three lines of the switch begin. */
  function SwitchEndAt(s: Stmt, k: nat, l: nat): nat
    requires s.Switch?
  {
    k + 7 + |EmitExpr(s.subject, l)| + |EmitCases(s.cases, 0, l, l + ExprCount(s.subject))| + (if Defaults(s.cases) == 0 then 1 else 0)
  }

  /** The parts of case i, and the offsets of its labels; for the first missing case, those of the end. */
  lemma CaseAt(x: Ctx, s: Stmt, k: nat, l: nat, i: nat)
    requires SwitchAt(x, s, k, l) && i <= |s.cases|
    ensures Addr(x.p, Label(CasePre, l, i)) == Off(x.p, CaseK(s, k, l, i)) == Off(x.p, CaseK(s, k, l, i) + 1)
    ensures Addr(x.p, Label(CaseBody, l, i)) == Off(x.p, BodyK(s, k, l, i))
    ensures i == DefaultIndex(s.cases) ==> Addr(x.p, L(SwitchDefault, l)) == Off(x.p, BodyK(s, k, l, i))
    ensures i < |s.cases| ==>
      var cb := EmitStmt(s.cases[i].body, BodyL(s, l, i), None);
      var entry := CaseEntry(l, i, s.cases[i].test.Some?);
      && HasCode(x.p, CaseK(s, k, l, i), entry)
      && HasCode(x.p, CaseK(s, k, l, i) + |entry|, CaseTestCode(l, i, TestOf(s, l, i)))
      && Off(x.p, CaseK(s, k, l, i) + |entry| - 1) == Off(x.p, CaseK(s, k, l, i) + |entry|)
      && Off(x.p, BodyK(s, k, l, i) - 1) == Off(x.p, BodyK(s, k, l, i))
      && HasCode(x.p, BodyK(s, k, l, i), cb)
      && HasCode(x.p, BodyK(s, k, l, i) + |cb|, [Op(JumpAbsolute(Label(CaseBody, l, i + 1)))])
  {
    hide Sound, HasCode, Off, Addr, SwitchCode, CaseCode, EmitExpr, EmitStmt, CaseTestCode, CaseEntry, CasePos, CaseNum, WellFormed;
    var ce, cc := EmitExpr(s.subject, l), EmitCases(s.cases, 0, l, l + ExprCount(s.subject));
    SwitchParts(x, k, l, ce, cc, |s.cases|, Defaults(s.cases));
    CaseAtPos(x.p, k + 2 + |ce|, s.cases, l, l + ExprCount(s.subject), i);
    DefaultPlace(s.cases);
    if i < |s.cases| {
      CaseParts(x, CaseK(s, k, l, i), l, i, TestOf(s, l, i), EmitStmt(s.cases[i].body, BodyL(s, l, i), None));
    } else {
      LabelAt(x, k + 2 + |ce| + |cc|, [Lab(Label(CasePre, l, i)), Op(PopTop), Op(JumpAbsolute(L(SwitchDefault, l))),
                                      Lab(Label(CaseTest, l, i)), Lab(Label(CaseBody, l, i))], 0);
    }
  }

  lemma DefaultPlace(cases: seq<Case>)
    ensures DefaultIndex(cases) < |cases| ==> cases[DefaultIndex(cases)].test.None?
    ensures DefaultIndex(cases) == |cases| <==> Defaults(cases) == 0
  {
  }

  /** The innermost block of c is that of switch s, whose subject v lies above base. */
  predicate Switching(x: Ctx, s: Stmt, l: nat, base: seq<Value>, v: Value, c: Vm) {
    && |base| + StackNeed(s) <= x.size && c.blocks != [] && Floor(Around(c, base)) <= |base| && |c.blocks| - 1 + BlockNeed(s) <= BLOCK_MAX_DEPTH
    && c.blocks[|c.blocks| - 1]
       == LoopBlock(Addr(x.p, L(SwitchEnd, l)), Addr(x.p, L(SwitchDefault, l)), |base| + 1, false)
  }

  lemma NeedsOfSwitch(s: Stmt, i: nat)
    requires s.Switch? && i < |s.cases|
    ensures StackNeed(s) >= 3 && (s.cases[i].test.Some? ==> 2 + ExprNeed(s.cases[i].test.value) <= StackNeed(s))
    ensures 1 + StackNeed(s.cases[i].body) <= StackNeed(s) && BlockNeed(s.cases[i].body) < BlockNeed(s)
    ensures WellFormed(s, false) ==> WellFormed(s.cases[i].body, false)
  {
    NeedsOfCase(s.cases, i);
  }

  lemma {:induction false} NeedsOfCase(cases: seq<Case>, i: nat)
    requires i < |cases|
    ensures cases[i].test.Some? ==> 2 + ExprNeed(cases[i].test.value) <= CasesStackNeed(cases)
    ensures 1 + StackNeed(cases[i].body) <= CasesStackNeed(cases) && BlockNeed(cases[i].body) <= CasesBlockNeed(cases)
    ensures WellFormedCases(cases) ==> WellFormed(cases[i].body, false)
  {
    if i > 0 { NeedsOfCase(cases[1..], i - 1); }
  }

  lemma {:induction false} SimSwitch(x: Ctx, s: Stmt, k: nat, l: nat, cont: Option<Label>, n: nat, c: Vm, fuel: nat)
    returns (m: nat, d: Vm)
    requires s.Switch? && WellFormed(s, cont.Some?) && Room(x, c, s)
    requires Here(x, n, c, k) && HasCode(x.p, k, EmitStmt(s, l, cont))
    ensures Ends(x, c, Exec(x.w, s, c.vars, fuel), k + |EmitStmt(s, l, cont)|, cont, n, fuel, m, d)
    decreases fuel, s, 3, 1
  {
    hide Sound, Reached, HasCode, Off, Addr, ExecInstr, SwitchCode, Ends, Select, Eval;
    assert EmitStmt(s, l, cont) == SwitchBody(s, l + 1);
    m, d := SimSwitchEnter(x, s, k, l + 1, n, c, fuel);
    EndsAnyCont(x, c, Exec(x.w, s, c.vars, fuel), k + |SwitchBody(s, l + 1)|, cont, n, fuel, m, d);
  }

  lemma {:induction false} SimSwitchEnter(x: Ctx, s: Stmt, k: nat, l: nat, n: nat, c: Vm, fuel: nat)
    returns (m: nat, d: Vm)
    requires SwitchAt(x, s, k, l) && Room(x, c, s) && Here(x, n, c, k)
    ensures Ends(x, c, Exec(x.w, s, c.vars, fuel), k + |SwitchBody(s, l)|, None, n, fuel, m, d)
    decreases fuel, s, 3, 0
  {
    hide Sound, Reached, HasCode, Off, Addr, ExecInstr, SwitchCode, Select, EmitExpr, EmitCases, Eval, ExprNeed, WellFormed, CasesStackNeed, CasesBlockNeed;
    NestedAt(x, n, c);
    var ce, cc := EmitExpr(s.subject, l), EmitCases(s.cases, 0, l, l + ExprCount(s.subject));
    SwitchParts(x, k, l, ce, cc, |s.cases|, Defaults(s.cases));
    var k1, end := k + |ce|, k + |SwitchBody(s, l)|;
    m, d := SimExpr(x, s.subject, k, l, n, c);
    var r := Eval(x.w, s.subject, c.vars);
    if !r.Ok? {
      EndsFailure(x, c, r, end, None, n, fuel, m, d, k1);
      return;
    }
    var i := SetupElseLoop(L(SwitchEnd, l), L(SwitchDefault, l));
    d := DoSetupLoop(x, m, d, k1, [Lab(L(SwitchBegin, l)), Op(i)], 1, i);
    var c2 := d;
    assert c2.stack == c.stack + [r.v] + [];
    assert Around(c2, c.stack) == c.(ip := c2.ip);
    m, d := SimSelect(x, s, k, l, 0, c.stack, r.v, [], m + 1, c2, fuel);
    EndsFrom(x, Around(c2, c.stack), c, Select(x.w, s, 0, r.v, c.vars, fuel), end, None, n, n, fuel, fuel, m, d);
  }

  /** The tests from case i on.  After the first case, `t` is the value of the test that led here. */
  lemma {:induction false} SimSelect(x: Ctx, s: Stmt, k: nat, l: nat, i: nat, base: seq<Value>, v: Value, t: seq<Value>,
                                     n: nat, c: Vm, fuel: nat)
    returns (m: nat, d: Vm)
    requires SwitchAt(x, s, k, l) && i <= |s.cases| && Switching(x, s, l, base, v, c)
    requires c.stack == base + [v] + t && |t| == (if i == 0 then 0 else 1) && Here(x, n, c, CaseK(s, k, l, i))
    ensures Ends(x, Around(c, base), Select(x.w, s, i, v, c.vars, fuel), k + |SwitchBody(s, l)|, None, n, fuel, m, d)
    decreases fuel, s, 2, |s.cases| - i, 2
  {
    hide Sound, Reached, HasCode, Off, Addr, ExecInstr, SwitchCode, CaseCode, EmitExpr, EmitStmt, EmitCases, Eval, StackNeed, BlockNeed, WellFormed, CaseK, BodyK, CaseL, BodyL, FallThrough;
    var end := k + |SwitchBody(s, l)|;
    CaseAt(x, s, k, l, i);
    if i == |s.cases| {
      m, d := SimNoMatch(x, s, k, l, base, v, t, n, c, fuel);
    } else if s.cases[i].test.None? {
      CaseAt(x, s, k, l, i + 1);
      NeedsOfSwitch(s, i);
      var entry := CaseEntry(l, i, false);
      d := c.(ip := Off(x.p, CaseK(s, k, l, i) + 1));
      m := n;
      if i == 0 {
        assert base + [v] + [] == base + [v];
        d := DoDup(x, n, d, CaseK(s, k, l, i), entry, 1);
        m := n + 1;
      }
      d := DoJump(x, m, d, CaseK(s, k, l, i), entry, |entry| - 2, Label(CasePre, l, i + 1));
      var c2 := d;
      m, d := SimSelect(x, s, k, l, i + 1, base, v, if i == 0 then [v] else t, m + 1, c2, fuel);
      EndsFrom(x, Around(c2, base), Around(c, base), Select(x.w, s, i + 1, v, c.vars, fuel), end, None, n, n, fuel, fuel, m, d);
    } else {
      m, d := SimTest(x, s, k, l, i, base, v, t, n, c, fuel);
    }
  }

  /** No case matched: go to the default. */
  lemma {:induction false} SimNoMatch(x: Ctx, s: Stmt, k: nat, l: nat, base: seq<Value>, v: Value, t: seq<Value>,
                                      n: nat, c: Vm, fuel: nat)
    returns (m: nat, d: Vm)
    requires SwitchAt(x, s, k, l) && Switching(x, s, l, base, v, c)
    requires c.stack == base + [v] + t && |t| == 1 && Here(x, n, c, CaseK(s, k, l, |s.cases|))
    ensures Ends(x, Around(c, base), FromDefault(x.w, s, c.vars, fuel), k + |SwitchBody(s, l)|, None, n, fuel, m, d)
    decreases fuel, s, 1, |s.cases| + 2
  {
    hide Sound, Reached, HasCode, Off, Addr, ExecInstr, SwitchCode, EmitExpr, EmitCases, StackNeed, BlockNeed, WellFormed, BodyK, FallThrough, CasePos;
    var ce, cc := EmitExpr(s.subject, l), EmitCases(s.cases, 0, l, l + ExprCount(s.subject));
    SwitchParts(x, k, l, ce, cc, |s.cases|, Defaults(s.cases));
    CaseAtPos(x.p, k + 2 + |ce|, s.cases, l, l + ExprCount(s.subject), |s.cases|);
    var tail := [Lab(Label(CasePre, l, |s.cases|)), Op(PopTop), Op(JumpAbsolute(L(SwitchDefault, l))),
                 Lab(Label(CaseTest, l, |s.cases|)), Lab(Label(CaseBody, l, |s.cases|))];
    var k2, dflt := k + 2 + |ce| + |cc|, DefaultIndex(s.cases);
    CaseAt(x, s, k, l, dflt);
    LabelAt(x, k2, tail, 0);
    d := DoPop(x, n, c, k2, tail, 1);
    assert d.stack == base + [v];
    d := DoJump(x, n + 1, d, k2, tail, 2, L(SwitchDefault, l));
    var c2 := d;
    m, d := SimFallThrough(x, s, k, l, dflt, base, v, n + 2, c2, fuel);
    EndsFrom(x, Around(c2, base), Around(c, base), FromDefault(x.w, s, c.vars, fuel), k + |SwitchBody(s, l)|, None, n, n, fuel, fuel, m, d);
  }

  /** Case i has a test: compare its value with the subject. */
  lemma {:induction false} SimTest(x: Ctx, s: Stmt, k: nat, l: nat, i: nat, base: seq<Value>, v: Value, t: seq<Value>,
                                   n: nat, c: Vm, fuel: nat)
    returns (m: nat, d: Vm)
    requires SwitchAt(x, s, k, l) && i < |s.cases| && s.cases[i].test.Some? && Switching(x, s, l, base, v, c)
    requires c.stack == base + [v] + t && |t| == (if i == 0 then 0 else 1) && Here(x, n, c, CaseK(s, k, l, i))
    ensures Ends(x, Around(c, base), Select(x.w, s, i, v, c.vars, fuel), k + |SwitchBody(s, l)|, None, n, fuel, m, d)
    decreases fuel, s, 2, |s.cases| - i, 1
  {
    hide Sound, Reached, HasCode, Off, Addr, ExecInstr, SwitchCode, CaseCode, EmitExpr, EmitStmt, EmitCases, Eval, StackNeed, BlockNeed, ExprNeed, WellFormed, CaseK, CaseL, BodyL, FallThrough, Ends, Select;
    var end, e := k + |SwitchBody(s, l)|, s.cases[i].test.value;
    CaseAt(x, s, k, l, i);
    NeedsOfSwitch(s, i);
    var entry, ct := CaseEntry(l, i, true), EmitExpr(e, CaseL(s, l, i));
    var k1 := CaseK(s, k, l, i) + |entry|;
    var s1, s2 := [Op(DupTop)], [Op(Compare(Eq)), Op(JumpIfFalse(Label(CasePre, l, i + 1))), Op(PopTop)];
    Split3(x.p, k1, s1, ct, s2);
    m, d := n, c;
    if i > 0 {
      d := DoPop(x, n, c.(ip := Off(x.p, k1 - |entry| + 1)), k1 - |entry|, entry, 1);
      m := n + 1;
    }
    assert d.stack == base + [v];
    d := DoDup(x, m, d, k1, s1, 0);
    m := m + 1;
    var c1 := d;
    assert c1.stack == base + [v] + [v];
    var n1 := m;
    m, d := SimTested(x, s, k, l, i, base, v, n1, c1, fuel);
    EndsFrom(x, Around(c1, base), Around(c, base), Select(x.w, s, i, v, c.vars, fuel), end, None, n1, n, fuel, fuel, m, d);
  }

  /** The test of case i, above a copy of the subject. */
  lemma {:induction false} SimTested(x: Ctx, s: Stmt, k: nat, l: nat, i: nat, base: seq<Value>, v: Value, n: nat, c: Vm, fuel: nat)
    returns (m: nat, d: Vm)
    requires SwitchAt(x, s, k, l) && i < |s.cases| && s.cases[i].test.Some? && Switching(x, s, l, base, v, c)
    requires c.stack == base + [v] + [v] && Here(x, n, c, CaseK(s, k, l, i) + |CaseEntry(l, i, true)| + 1)
    ensures Ends(x, Around(c, base), Select(x.w, s, i, v, c.vars, fuel), k + |SwitchBody(s, l)|, None, n, fuel, m, d)
    decreases fuel, s, 2, |s.cases| - i, 0
  {
    hide Sound, Reached, HasCode, Off, Addr, ExecInstr, SwitchCode, CaseCode, EmitExpr, EmitStmt, EmitCases, Eval, StackNeed, BlockNeed,
      ExprNeed, WellFormed, CaseK, CaseL, BodyL, FallThrough, Ends, Compared, Computed, SwitchBody, CaseEntry;
    var end, e := k + |SwitchBody(s, l)|, s.cases[i].test.value;
    CaseAt(x, s, k, l, i);
    NeedsOfSwitch(s, i);
    var k1, ct := CaseK(s, k, l, i) + |CaseEntry(l, i, true)|, EmitExpr(e, CaseL(s, l, i));
    Split3(x.p, k1, [Op(DupTop)], ct, [Op(Compare(Eq)), Op(JumpIfFalse(Label(CasePre, l, i + 1))), Op(PopTop)]);
    m, d := SimExpr(x, e, k1 + 1, CaseL(s, l, i), n, c);
    var r := Eval(x.w, e, c.vars);
    if !r.Ok? {
      m, d := FailsInside(x, c, base, r, k1 + 1 + |ct|, end, n, fuel, m, d);
      return;
    }
    Yields(x, c, r, k1 + 1 + |ct|, d);
    var n2, c2 := m, d;
    m, d := SimCompare(x, s, k, l, i, base, v, k1 + 1 + |ct|, r.v, n2, c2, fuel);
    EndsFrom(x, Around(c2, base), Around(c, base), Compared(x.w, s, i, r.v, v, c.vars, fuel), end, None, n2, n, fuel, fuel, m, d);
  }

  /** The value e of the test of case i lies above a copy of the subject: compare, and enter the body
      or go on to the next case. */
  lemma {:induction false} SimCompare(x: Ctx, s: Stmt, k: nat, l: nat, i: nat, base: seq<Value>, v: Value, j: nat, e: Value,
                                      n: nat, c: Vm, fuel: nat)
    returns (m: nat, d: Vm)
    requires SwitchAt(x, s, k, l) && i < |s.cases| && s.cases[i].test.Some? && Switching(x, s, l, base, v, c)
    requires c.stack == base + [v] + [v] + [e] && Here(x, n, c, j) && j + 4 == BodyK(s, k, l, i)
    requires HasCode(x.p, j, [Op(Compare(Eq)), Op(JumpIfFalse(Label(CasePre, l, i + 1))), Op(PopTop)])
    ensures Ends(x, Around(c, base), Compared(x.w, s, i, e, v, c.vars, fuel), k + |SwitchBody(s, l)|, None, n, fuel, m, d)
    decreases fuel, s, 2, |s.cases| - i - 1, 3
  {
    hide Sound, Reached, HasCode, Off, Addr, ExecInstr, SwitchCode, EmitExpr, EmitStmt, EmitCases, StackNeed, BlockNeed, WellFormed, CaseK, BodyK, FallThrough, Select, Ends;
    var end := k + |SwitchBody(s, l)|;
    CaseAt(x, s, k, l, i);
    CaseAt(x, s, k, l, i + 1);
    NeedsOfSwitch(s, i);
    var c0 := c.(stack := base + [v]);
    m, d := SimEqual(x, l, i, base, v, e, j, n, c);
    var n2, c2 := m, d;
    var r := x.w.compare(Eq, e, v);
    if !r.Ok? {
      m, d := FailsInside(x, c0, base, r, j, end, n, fuel, m, d);
      EndsFrom(x, Around(c0, base), Around(c, base), Failure(c.vars, r), end, None, n, n, fuel, fuel, m, d);
    } else if Truth(x.w, r.v) {
      m, d := SimFallThrough(x, s, k, l, i, base, v, n2, c2, fuel);
      EndsFrom(x, Around(c2, base), Around(c, base), FallThrough(x.w, s, i, c.vars, fuel), end, None, n2, n, fuel, fuel, m, d);
    } else {
      m, d := SimSelect(x, s, k, l, i + 1, base, v, [r.v], n2, c2, fuel);
      EndsFrom(x, Around(c2, base), Around(c, base), Select(x.w, s, i + 1, v, c.vars, fuel), end, None, n2, n, fuel, fuel, m, d);
    }
  }

  /** The lines of a case that compare e with the subject v. */
  lemma SimEqual(x: Ctx, l: nat, i: nat, base: seq<Value>, v: Value, e: Value, j: nat, n: nat, c: Vm) returns (m: nat, d: Vm)
    requires c.stack == base + [v] + [v] + [e] && Here(x, n, c, j) && Floor(c) <= |base| + 1 <= x.size - 2
    requires HasCode(x.p, j, [Op(Compare(Eq)), Op(JumpIfFalse(Label(CasePre, l, i + 1))), Op(PopTop)])
    ensures m >= n && Reached(x, m, d)
    ensures var r := x.w.compare(Eq, e, v);
            if !r.Ok? then Computed(x, c.(stack := base + [v]), r, j, d)
            else if Truth(x.w, r.v) then d == c.(ip := Off(x.p, j + 3), stack := base + [v])
            else d == c.(ip := Addr(x.p, Label(CasePre, l, i + 1)), stack := base + [v] + [r.v])
  {
    hide Sound, Reached, HasCode, Off, Addr, ExecInstr;
    var code := [Op(Compare(Eq)), Op(JumpIfFalse(Label(CasePre, l, i + 1))), Op(PopTop)];
    assert c.stack[..|c.stack| - 2] == base + [v];
    d := DoTwo(x, n, c, j, code, 0, Compare(Eq));
    m := n + 1;
    var r := x.w.compare(Eq, e, v);
    if r.Ok? {
      d := DoTest(x, m, d, j, code, 1, JumpIfFalse(Label(CasePre, l, i + 1)));
      m := n + 2;
      if Truth(x.w, r.v) {
        assert d.stack[..|d.stack| - 1] == base + [v];
        d := DoPop(x, m, d, j, code, 2);
        m := n + 3;
      }
    }
  }

  /** The bodies from case i on. */
  lemma {:induction false} SimFallThrough(x: Ctx, s: Stmt, k: nat, l: nat, i: nat, base: seq<Value>, v: Value, n: nat, c: Vm, fuel: nat)
    returns (m: nat, d: Vm)
    requires SwitchAt(x, s, k, l) && i <= |s.cases| && Switching(x, s, l, base, v, c)
    requires c.stack == base + [v] && Here(x, n, c, BodyK(s, k, l, i))
    ensures Ends(x, Around(c, base), FallThrough(x.w, s, i, c.vars, fuel), k + |SwitchBody(s, l)|, None, n, fuel, m, d)
    decreases fuel, s, 1, |s.cases| - i
  {
    hide Sound, Reached, HasCode, Off, Addr, ExecInstr, SwitchCode, CaseCode, CaseTestCode, EmitExpr, EmitStmt, EmitCases, Exec, StackNeed, BlockNeed, WellFormed, CaseK, BodyK, BodyL, Ends, SwitchBody, TestOf, CaseEntry, SwitchEndAt, CaseL, TryBody, WhileBody, DoBody, ForBody;
    var end := k + |SwitchBody(s, l)|;
    if i == |s.cases| {
      BodyAtEnd(s, k, l);
      m, d := SimSwitchEnd(x, s, k, l, base, v, n, c, fuel);
      return;
    }
    CaseAt(x, s, k, l, i);
    NeedsOfSwitch(s, i);
    var body, kb := s.cases[i].body, BodyK(s, k, l, i);
    var cb := EmitStmt(body, BodyL(s, l, i), None);
    m, d := SimStmt(x, body, kb, BodyL(s, l, i), None, n, c, fuel);
    var o := Exec(x.w, body, c.vars, fuel);
    if o.Normal? {
      CaseAt(x, s, k, l, i + 1);
      EndedNormally(x, c, o, kb + |cb|, None, n, fuel, m, d);
      d := DoJump(x, m, d, kb + |cb|, [Op(JumpAbsolute(Label(CaseBody, l, i + 1)))], 0, Label(CaseBody, l, i + 1));
      var m2, c2 := m + 1, d;
      m, d := SimFallThrough(x, s, k, l, i + 1, base, v, m2, c2, fuel);
      EndsFrom(x, Around(c2, base), Around(c, base), FallThrough(x.w, s, i + 1, o.vars, fuel), end, None, m2, n, fuel, fuel, m, d);
    } else if o.BrokeElse? {
      CaseAt(x, s, k, l, DefaultIndex(s.cases));
      d := Resumes(x, c, o, kb + |cb|, None, n, fuel, m, d);
      m := m + 1;
      if fuel == 0 {
        EndsTimeout(x, Around(c, base), end, None, n, m, d);
        return;
      }
      var m2, c2 := m, d;
      m, d := SimFallThrough(x, s, k, l, DefaultIndex(s.cases), base, v, m2, c2, fuel - 1);
      EndsFrom(x, Around(c2, base), Around(c, base), FromDefault(x.w, s, o.vars, fuel - 1), end, None, m2, n, fuel - 1, fuel, m, d);
    } else {
      m, d := SimLeaveCase(x, s, k, l, base, v, o, kb + |cb|, n, c, m, d, fuel);
    }
  }

  /** The last lines of the switch, where breaks arrive, too. */
  lemma SimSwitchEnd(x: Ctx, s: Stmt, k: nat, l: nat, base: seq<Value>, v: Value, n: nat, c: Vm, fuel: nat)
    returns (m: nat, d: Vm)
    requires SwitchAt(x, s, k, l) && Switching(x, s, l, base, v, c) && c.stack == base + [v]
    requires Here(x, n, c, SwitchEndAt(s, k, l) + 1)
    ensures Ends(x, Around(c, base), Normal(c.vars), k + |SwitchBody(s, l)|, None, n, fuel, m, d)
  {
    hide Sound, Reached, HasCode, Off, Addr, ExecInstr, SwitchCode, EmitExpr, EmitCases, StackNeed, BlockNeed, WellFormed;
    SwitchParts(x, k, l, EmitExpr(s.subject, l), EmitCases(s.cases, 0, l, l + ExprCount(s.subject)), |s.cases|, Defaults(s.cases));
    var tail, k3 := [Lab(L(SwitchEnd, l)), Op(PopBlock), Op(PopTop)], SwitchEndAt(s, k, l);
    d := DoPopBlock(x, n, c, k3, tail, 1);
    d := DoPop(x, n + 1, d, k3, tail, 2);
    assert d.stack == base;
    m := n + 2;
  }

  /** A body that neither falls through nor goes to the default. */
  lemma SimLeaveCase(x: Ctx, s: Stmt, k: nat, l: nat, base: seq<Value>, v: Value, o: Outcome, j: nat, n: nat, c: Vm,
                     m0: nat, d0: Vm, fuel: nat)
    returns (m: nat, d: Vm)
    requires SwitchAt(x, s, k, l) && Switching(x, s, l, base, v, c) && c.stack == base + [v] && Live(c)
    requires Ends(x, c, o, j, None, n, fuel, m0, d0) && !o.Normal? && !o.BrokeElse?
    ensures !o.Continued?
    ensures Ends(x, Around(c, base), Escape(o), k + |SwitchBody(s, l)|, None, n, fuel, m, d)
  {
    hide Sound, Reached, HasCode, Off, Addr, ExecInstr, SwitchCode, EmitExpr, EmitCases, StackNeed, BlockNeed, WellFormed;
    SwitchParts(x, k, l, EmitExpr(s.subject, l), EmitCases(s.cases, 0, l, l + ExprCount(s.subject)), |s.cases|, Defaults(s.cases));
    var end := k + |SwitchBody(s, l)|;
    m, d := m0, d0;
    if o.Broke? {
      d := Unwind(x, m, d);
      var c2 := d;
      m, d := SimSwitchEnd(x, s, k, l, base, v, m + 1, c2, fuel);
      EndsFrom(x, Around(c2, base), Around(c, base), Normal(o.vars), end, None, m0 + 1, n, fuel, 0, m, d);
    } else if o.Threw? {
      d := Passes(x, m, d, c, base, o.vars, o.x);
      m := m + 1;
    } else if Final(o) {
      EndsFinal(x, c, Around(c, base), o, j, end, None, None, n, n, fuel, m, d);
    }
  }
}
