/** The statement compiler as it runs: a recursive walk over the syntax tree that appends lines to a frame,
    pushes and pops the load or store context, and updates its counters and its table of loop blocks. */
module Walkers {
  import opened Values
  import opened Syntax
  import opened Assembly
  import opened Emit
  import opened Machine
  import opened Foreach

  datatype Context = Load | Store

  /** An open block of the compiler; `continue` goes to the label of the innermost loop. */
  datatype Scope = Scope(loop: bool, to: Label)

  /** How many entries of the block table a statement can need. */
  function ScopeNeed(s: Stmt): nat
    decreases s, 1
  {
    match s
    case Group(items) => ItemsScopeNeed(items)
    case If(_, t, e) => Max(ScopeNeed(t), if e.Some? then Drift(t) + ScopeNeed(e.value) else 0)
    case While(_, b, e) => 1 + Max(ScopeNeed(b), if e.Some? then Drift(b) + ScopeNeed(e.value) else 0)
    case Do(b, _) => 1 + ScopeNeed(b)
    case For(_, _, st, b) => 1 + Max(ScopeNeed(b), Drift(b) + ScopeNeed(st))
    case Switch(_, cases) => 1 + CasesScopeNeed(cases)
    case Try(b, catches, f) =>
      Max(ScopeNeed(b), Max(Drift(b) + CatchesScopeNeed(catches), Drift(b) + DriftCatches(catches) + ScopeNeed(f)))
    case _ => 0
  }

  function ItemsScopeNeed(items: seq<Stmt>): nat
    decreases items, 0
  {
    if items == [] then 0 else Max(ScopeNeed(items[0]), Drift(items[0]) + ItemsScopeNeed(items[1..]))
  }

  function CasesScopeNeed(cases: seq<Case>): nat
    decreases cases, 0
  {
    if cases == [] then 0 else
    assert cases[0].body < cases[0];
    Max(ScopeNeed(cases[0].body), Drift(cases[0].body) + CasesScopeNeed(cases[1..]))
  }

  function CatchesScopeNeed(catches: seq<Catch>): nat
    decreases catches, 0
  {
    if catches == [] then 0 else Max(ScopeNeed(catches[0].body), Drift(catches[0].body) + CatchesScopeNeed(catches[1..]))
  }

  function ForeachScopes(s: Foreach): nat {
    1 + Max(ScopeNeed(s.body), if s.els.Some? then Drift(s.body) + ScopeNeed(s.els.value) else 0)
  }

  class Walker {
    var frame: seq<Line>
    var context: seq<Context>
    var loopCount: nat
    var blockCount: nat
    var multi: nat
    const blocks: array<Scope>

    /** Every open block is a loop (or a switch, which is entered as one). */
    predicate Valid()
      reads this`blockCount, blocks
    {
      blocks.Length == BLOCK_MAX_DEPTH && blockCount <= BLOCK_MAX_DEPTH && forall i :: 0 <= i < blockCount ==> blocks[i].loop
    }

    /** `continue` finds this label, if it may be used at all. */
    predicate Continues(cont: Option<Label>)
      reads this`blockCount, blocks
    {
      cont.Some? ==> 0 < blockCount <= blocks.Length && blocks[blockCount - 1].to == cont.value
    }

    constructor ()
      ensures Valid() && fresh(blocks) && frame == [] && context == [] && loopCount == 0 && blockCount == 0 && multi == 0
    {
      frame, context, loopCount, blockCount, multi := [], [], 0, 0, 0;
      blocks := new Scope[BLOCK_MAX_DEPTH](i => Scope(false, L(WhileTop, 0)));
    }

    method Append(lines: seq<Line>, ghost base: seq<Line>, ghost done: seq<Line>)
      requires frame == base + done
      modifies this`frame
      ensures frame == base + (done + lines)
    {
      frame := frame + lines;
    }

    method Enter(c: Context)
      modifies this`context
      ensures context == old(context) + [c]
    {
      context := context + [c];
    }

    method Leave(ghost outer: seq<Context>, ghost c: Context)
      requires context == outer + [c]
      modifies this`context
      ensures context == outer
    {
      context := context[..|context| - 1];
    }

    /** Load or store an identifier, as the context says. */
    method LoadOrStore(id: Id)
      requires context != []
      modifies this`frame
      ensures frame == old(frame) + [Op(if context[|context| - 1].Load? then LoadId(id) else StoreId(id))]
    {
      match context[|context| - 1]
      case Load => frame := frame + [Op(LoadId(id))];
      case Store => frame := frame + [Op(StoreId(id))];
    }

    // ----- expressions -----

    /** An expression in load context, or a target in store context. */
    method WalkExpr(e: Expr)
      requires context != [] && (context[|context| - 1].Store? ==> IsTarget(e))
      modifies this`frame, this`context, this`loopCount
      ensures context == old(context)
      ensures if old(context)[|old(context)| - 1].Load?
              then frame == old(frame) + EmitExpr(e, old(loopCount)) && loopCount == old(loopCount) + ExprCount(e)
              else frame == old(frame) + EmitStore(e) && loopCount == old(loopCount)
      decreases e, 1
    {
      match e
      case Const(v) => frame := frame + [Op(LoadConst(v))];
      case NullLit => frame := frame + [Op(LoadId("null"))];
      case Name(id) => LoadOrStore(id);
      case Operator(op, l, r) => WalkOperator(e);
      case Comparison(cmp, l, r) => WalkComparison(e);
      case And(l, r) => WalkBool(e);
      case Or(l, r) => WalkBool(e);
      case Coalesce(l, r) => WalkCoalesce(e);
      case Ternary(c, t, f) => WalkTernary(e);
      case TupleLit(elems) => WalkTuple(e);
    }

    /** An expression in a load context of its own. */
    method LoadExpr(e: Expr, ghost base: seq<Line>, ghost done: seq<Line>)
      requires frame == base + done
      modifies this`frame, this`context, this`loopCount
      ensures context == old(context) && loopCount == old(loopCount) + ExprCount(e)
      ensures frame == base + (done + EmitExpr(e, old(loopCount)))
      decreases e, 2
    {
      hide EmitExpr, ExprCount;
      ghost var outer, n := context, loopCount;
      Enter(Load);
      WalkExpr(e);
      Leave(outer, Load);
      Assoc(base, done, EmitExpr(e, n));
    }

    method WalkOperator(e: Expr)
      requires e.Operator? && context != [] && context[|context| - 1].Load?
      modifies this`frame, this`context, this`loopCount
      ensures context == old(context) && frame == old(frame) + EmitExpr(e, old(loopCount)) && loopCount == old(loopCount) + ExprCount(e)
      decreases e, 0
    {
      hide EmitExpr, ExprCount;
      TwoIs(e, loopCount);
      ghost var f, n := frame, loopCount;
      WalkExpr(e.l);
      WalkExpr(e.r);
      Assoc(f, EmitExpr(e.l, n), EmitExpr(e.r, n + ExprCount(e.l)));
      Append([Op(Operate(e.op))], f, EmitExpr(e.l, n) + EmitExpr(e.r, n + ExprCount(e.l)));
    }

    method WalkComparison(e: Expr)
      requires e.Comparison?
      modifies this`frame, this`context, this`loopCount
      ensures context == old(context) && frame == old(frame) + EmitExpr(e, old(loopCount)) && loopCount == old(loopCount) + ExprCount(e)
      decreases e, 0
    {
      hide EmitExpr, ExprCount;
      TwoIs(e, loopCount);
      ghost var f, n := frame, loopCount;
      Nothing(f);
      LoadExpr(e.r, f, []);
      LoadExpr(e.l, f, [] + EmitExpr(e.r, n));
      Append([Op(Compare(e.cmp))], f, [] + EmitExpr(e.r, n) + EmitExpr(e.l, n + ExprCount(e.r)));
    }

    method WalkBool(e: Expr)
      requires (e.And? || e.Or?) && context != [] && context[|context| - 1].Load?
      modifies this`frame, this`context, this`loopCount
      ensures context == old(context) && frame == old(frame) + EmitExpr(e, old(loopCount)) && loopCount == old(loopCount) + ExprCount(e)
      decreases e, 0, 1
    {
      hide EmitExpr, ExprCount, ShortCode;
      BoolIs(e, loopCount);
      loopCount := loopCount + 1;
      if e.And? {
        WalkShort(e, JumpIfFalse(L(AndEnd, loopCount)), L(AndEnd, loopCount));
      } else {
        WalkShort(e, JumpIfTrue(L(OrEnd, loopCount)), L(OrEnd, loopCount));
      }
    }

    /** The left operand, a jump over the right one, and the right one. */
    method WalkShort(e: Expr, i: Instr<Label>, end: Label)
      requires (e.And? || e.Or?) && context != [] && context[|context| - 1].Load?
      modifies this`frame, this`context, this`loopCount
      ensures context == old(context) && loopCount == old(loopCount) + ExprCount(e.l) + ExprCount(e.r)
      ensures frame == old(frame) + ShortCode(i, end, EmitExpr(e.l, old(loopCount)), EmitExpr(e.r, old(loopCount) + ExprCount(e.l)))
      decreases e, 0, 0
    {
      hide EmitExpr, ExprCount;
      ghost var f, n := frame, loopCount;
      ghost var l, r := EmitExpr(e.l, n), EmitExpr(e.r, n + ExprCount(e.l));
      WalkExpr(e.l);
      Append([Op(i), Op(PopTop)], f, l);
      WalkExpr(e.r);
      Assoc(f, l + [Op(i), Op(PopTop)], r);
      Append([Lab(end)], f, l + [Op(i), Op(PopTop)] + r);
    }

    method WalkCoalesce(e: Expr)
      requires e.Coalesce?
      modifies this`frame, this`context, this`loopCount
      ensures context == old(context) && frame == old(frame) + EmitExpr(e, old(loopCount)) && loopCount == old(loopCount) + ExprCount(e)
      decreases e, 0
    {
      hide EmitExpr, ExprCount;
      CoalesceIs(e, loopCount);
      ghost var f := frame;
      loopCount := loopCount + 1;
      ghost var n := loopCount;
      var default, end := L(CoalesceDefault, loopCount), L(CoalesceEnd, loopCount);
      var mid := [Op(DupTop), Op(JumpIfFalse(default)), Op(PopTop), Op(JumpAbsolute(end)), Lab(default), Op(PopTop), Op(PopTop)];
      Nothing(f);
      LoadExpr(e.l, f, []);
      Append(mid, f, [] + EmitExpr(e.l, n));
      LoadExpr(e.r, f, [] + EmitExpr(e.l, n) + mid);
      Append([Op(JumpAbsolute(end)), Lab(end)], f, [] + EmitExpr(e.l, n) + mid + EmitExpr(e.r, n + ExprCount(e.l)));
    }

    method WalkTernary(e: Expr)
      requires e.Ternary?
      modifies this`frame, this`context, this`loopCount
      ensures context == old(context) && frame == old(frame) + EmitExpr(e, old(loopCount)) && loopCount == old(loopCount) + ExprCount(e)
      decreases e, 0
    {
      hide EmitExpr, ExprCount;
      TernaryIs(e, loopCount);
      ghost var f := frame;
      loopCount := loopCount + 1;
      ghost var n := loopCount;
      var els, end := L(TernaryElse, loopCount), L(TernaryEnd, loopCount);
      var s1, s2 := [Op(JumpIfFalse(els)), Op(PopTop)], [Op(JumpAbsolute(end)), Lab(els), Op(PopTop)];
      ghost var c, t := EmitExpr(e.c, n), EmitExpr(e.t, n + ExprCount(e.c));
      ghost var r := EmitExpr(e.e, n + ExprCount(e.c) + ExprCount(e.t));
      Nothing(f);
      LoadExpr(e.c, f, []);
      Append(s1, f, [] + c);
      LoadExpr(e.t, f, [] + c + s1);
      Append(s2, f, [] + c + s1 + t);
      LoadExpr(e.e, f, [] + c + s1 + t + s2);
      Append([Op(JumpAbsolute(end)), Lab(end)], f, [] + c + s1 + t + s2 + r);
    }

    /** Elements are loaded in order and packed, or unpacked and stored from the last to the first. */
    method WalkTuple(e: Expr)
      requires e.TupleLit? && context != [] && (context[|context| - 1].Store? ==> IsTarget(e))
      modifies this`frame, this`context, this`loopCount
      ensures context == old(context)
      ensures if old(context)[|old(context)| - 1].Load?
              then frame == old(frame) + EmitExpr(e, old(loopCount)) && loopCount == old(loopCount) + ExprCount(e)
              else frame == old(frame) + EmitStore(e) && loopCount == old(loopCount)
      decreases e, 0, 1
    {
      match context[|context| - 1]
      case Load => LoadTuple(e);
      case Store => StoreTuple(e);
    }

    method LoadTuple(e: Expr)
      requires e.TupleLit? && context != [] && context[|context| - 1].Load?
      modifies this`frame, this`context, this`loopCount
      ensures context == old(context) && frame == old(frame) + EmitExpr(e, old(loopCount)) && loopCount == old(loopCount) + ExprCount(e)
      decreases e, 0, 0
    {
      ghost var f, n, ctx := frame, loopCount, context;
      var elems := e.elems;
      var i := 0;
      assert elems[0..] == elems;
      while i != |elems|
        invariant 0 <= i <= |elems| && context == ctx && loopCount + ItemsCount(elems[i..]) == n + ItemsCount(elems)
        invariant frame + EmitItems(elems[i..], loopCount) == f + EmitItems(elems, n)
      {
        ghost var f1, n1 := frame, loopCount;
        assert elems[i..][1..] == elems[i + 1..];
        WalkExpr(elems[i]);
        Assoc(f1, EmitExpr(elems[i], n1), EmitItems(elems[i + 1..], n1 + ExprCount(elems[i])));
        i := i + 1;
      }
      Append([Op(PackTuple(|elems|))], f, EmitItems(elems, n));
    }

    method StoreTuple(e: Expr)
      requires e.TupleLit? && IsTarget(e) && context != [] && context[|context| - 1].Store?
      modifies this`frame, this`context, this`loopCount
      ensures context == old(context) && frame == old(frame) + EmitStore(e) && loopCount == old(loopCount)
      decreases e, 0, 0
    {
      ghost var f, n, ctx := frame, loopCount, context;
      var elems := e.elems;
      frame := frame + [Op(UnpackTuple(|elems|))];
      var i := |elems|;
      assert elems[..i] == elems;
      while i != 0
        invariant 0 <= i <= |elems| && context == ctx && loopCount == n
        invariant frame + EmitStoreItems(elems[..i]) == f + [Op(UnpackTuple(|elems|))] + EmitStoreItems(elems)
      {
        i := i - 1;
        ghost var f1 := frame;
        assert elems[i] in elems && elems[..i + 1][..i] == elems[..i];
        WalkExpr(elems[i]);
        Assoc(f1, EmitStore(elems[i]), EmitStoreItems(elems[..i]));
      }
      Assoc(f, [Op(UnpackTuple(|elems|))], EmitStoreItems(elems));
    }

    // ----- assignments -----

    /** A target in a store context of its own. */
    method StoreInto(t: Expr, ghost base: seq<Line>, ghost done: seq<Line>)
      requires IsTarget(t) && frame == base + done
      modifies this`frame, this`context, this`loopCount
      ensures context == old(context) && loopCount == old(loopCount) && frame == base + (done + EmitStore(t))
    {
      hide EmitStore, EmitExpr, ExprCount;
      ghost var outer := context;
      Enter(Store);
      WalkExpr(t);
      Leave(outer, Store);
      Assoc(base, done, EmitStore(t));
    }

    /** An assignment.  If its right side is one, too, the counter of pending values goes up, and each
        assignment that finds the counter above zero leaves a copy of its value behind. */
    method WalkAssign(a: Assign)
      requires IsChain(a)
      modifies this`frame, this`context, this`loopCount, this`multi
      ensures context == old(context) && multi == MultiAfter(a, old(multi)) && loopCount == old(loopCount) + AssignCount(a)
      ensures frame == old(frame) + EmitAssign(a, old(loopCount), old(multi))
      decreases a
    {
      hide EmitExpr, ExprCount, EmitAssigned, IsTarget;
      ghost var f, n, m := frame, loopCount, multi;
      ghost var former, n1 := EmitOld(a, n), n + (if a.op.Some? then ExprCount(a.target) else 0);
      ghost var rhs := EmitRhs(a.rhs, n1, m);
      Nothing(f);
      if a.rhs.Chain? { multi := multi + 1; }
      if a.op.Some? { LoadExpr(a.target, f, []); }
      match a.rhs {
        case Plain(e) => LoadExpr(e, f, former);
        case Chain(b) =>
          ghost var outer := context;
          Enter(Load);
          WalkAssign(b);
          Leave(outer, Load);
          Assoc(f, former, rhs);
      }
      FinishAssign(a, f, former + rhs);
      AssignIs(a, n, m, former, rhs);
    }

    /** Combine, keep a copy if one is pending, and store. */
    method FinishAssign(a: Assign, ghost base: seq<Line>, ghost done: seq<Line>)
      requires IsTarget(a.target) && frame == base + done
      modifies this`frame, this`context, this`loopCount, this`multi
      ensures context == old(context) && loopCount == old(loopCount) && multi == (if old(multi) > 0 then old(multi) - 1 else 0)
      ensures frame == base + (done + EmitAssigned(a, old(multi) > 0))
    {
      hide EmitStore, IsTarget;
      var ops := if a.op.Some? then [Op(Operate(a.op.value))] else [];
      var dup := if multi > 0 then [Op(DupTop)] else [];
      Append(ops, base, done);
      if multi > 0 { multi := multi - 1; }
      Append(dup, base, done + ops);
      StoreInto(a.target, base, done + ops + dup);
      Assoc3(done, ops, dup, EmitStore(a.target));
    }

    // ----- statements -----

    /** A statement.  `cont` is the label that `continue` may use here.  Afterwards the frame has grown by the
        code of the statement, the label counter by its labels, and the block counter by its switches. */
    method WalkStmt(s: Stmt, ghost cont: Option<Label>)
      requires Valid() && multi == 0 && WellFormed(s, cont.Some?) && Continues(cont) && blockCount + ScopeNeed(s) <= BLOCK_MAX_DEPTH
      modifies this`frame, this`context, this`loopCount, this`multi, this`blockCount, blocks
      ensures Valid() && multi == 0 && context == old(context)
      ensures frame == old(frame) + EmitStmt(s, old(loopCount), cont)
      ensures loopCount == old(loopCount) + StmtCount(s) && blockCount == old(blockCount) + Drift(s)
      ensures forall i :: 0 <= i < old(blockCount) ==> blocks[i] == old(blocks[i])
      decreases s, 4
    {
      if s.While? || s.Do? || s.For? || s.Switch? { LoopIs(s, loopCount, cont); }
      hide EmitStmt, StmtCount, Drift, ScopeNeed, WellFormed;
      match s
      case Group(items) => WalkGroup(s, cont);
      case If(c, t, e) => WalkIf(s, cont);
      case While(c, b, e) => WalkWhile(s);
      case Do(b, c) => WalkDo(s);
      case For(i, c, st, b) => WalkFor(s);
      case Switch(e, cases) => WalkSwitch(s);
      case Try(b, catches, f) => WalkTry(s, cont);
      case _ => WalkSimple(s, cont);
    }

    method WalkSimple(s: Stmt, ghost cont: Option<Label>)
      requires s.Nop? || s.Let? || s.Break? || s.BreakElse? || s.Continue? || s.Throw? || s.Return?
      requires Valid() && multi == 0 && WellFormed(s, cont.Some?) && Continues(cont)
      modifies this`frame, this`context, this`loopCount, this`multi, this`blockCount
      ensures Valid() && multi == 0 && context == old(context) && blockCount == old(blockCount) && Drift(s) == 0
      ensures frame == old(frame) + EmitStmt(s, old(loopCount), cont) && loopCount == old(loopCount) + StmtCount(s)
    {
      hide EmitExpr, ExprCount, EmitAssign, AssignCount;
      match s
      case Nop =>
        Nothing(frame);
      case Let(a) =>
        MultiAfterChain(a, 0);
        WalkAssign(a);
      case Break => frame := frame + [Op(BreakLoop)];
      case BreakElse => frame := frame + [Op(BreakElseLoop)];
      case Continue => WalkContinue(cont);
      case Throw(e) => WalkLast(e, Instr.Throw);
      case Return(e) => WalkLast(e, Instr.Return);
    }

    /** A statement in a load context of its own. */
    method Inside(s: Stmt, ghost cont: Option<Label>, ghost base: seq<Line>, ghost done: seq<Line>)
      requires Valid() && multi == 0 && WellFormed(s, cont.Some?) && Continues(cont) && blockCount + ScopeNeed(s) <= BLOCK_MAX_DEPTH
      requires frame == base + done
      modifies this`frame, this`context, this`loopCount, this`multi, this`blockCount, blocks
      ensures Valid() && multi == 0 && context == old(context)
      ensures frame == base + (done + EmitStmt(s, old(loopCount), cont))
      ensures loopCount == old(loopCount) + StmtCount(s) && blockCount == old(blockCount) + Drift(s)
      ensures forall i :: 0 <= i < old(blockCount) ==> blocks[i] == old(blocks[i])
      decreases s, 5
    {
      hide EmitStmt, StmtCount, Drift, ScopeNeed, WellFormed;
      ghost var outer, n := context, loopCount;
      Enter(Load);
      WalkStmt(s, cont);
      Leave(outer, Load);
      Assoc(base, done, EmitStmt(s, n, cont));
    }

    /** A throw or a return. */
    method WalkLast(e: Expr, i: Instr<Label>)
      modifies this`frame, this`context, this`loopCount
      ensures context == old(context) && frame == old(frame) + (EmitExpr(e, old(loopCount)) + [Op(i)])
      ensures loopCount == old(loopCount) + ExprCount(e)
    {
      hide EmitExpr, ExprCount;
      ghost var f, n := frame, loopCount;
      Nothing(f);
      LoadExpr(e, f, []);
      Append([Op(i)], f, [] + EmitExpr(e, n));
    }

    /** Go back to the innermost loop block.  Every open block is a loop, so the search for one ends where
        it begins, and the block counter stays where it is. */
    method WalkContinue(ghost cont: Option<Label>)
      requires Valid() && cont.Some? && Continues(cont)
      modifies this`frame, this`blockCount
      ensures Valid() && frame == old(frame) + [Op(ContinueLoop(cont.value))] && blockCount == old(blockCount)
    {
      var i := blockCount - 1;
      assert blocks[i].loop;
      frame := frame + [Op(ContinueLoop(blocks[i].to))];
      blockCount := i + 1;
    }

    /** A new innermost block, which the statements of a loop continue to. */
    method OpenLoop(to: Label)
      requires Valid() && blockCount < BLOCK_MAX_DEPTH
      modifies this`blockCount, blocks
      ensures Valid() && blockCount == old(blockCount) + 1 && Continues(Some(to))
      ensures forall i :: 0 <= i < old(blockCount) ==> blocks[i] == old(blocks[i])
    {
      blocks[blockCount] := Scope(true, to);
      blockCount := blockCount + 1;
    }

    method CloseLoop()
      requires Valid() && blockCount > 0
      modifies this`blockCount
      ensures Valid() && blockCount == old(blockCount) - 1
    {
      blockCount := blockCount - 1;
    }

    method WalkGroup(s: Stmt, ghost cont: Option<Label>)
      requires s.Group?
      requires Valid() && multi == 0 && WellFormed(s, cont.Some?) && Continues(cont) && blockCount + ScopeNeed(s) <= BLOCK_MAX_DEPTH
      modifies this`frame, this`context, this`loopCount, this`multi, this`blockCount, blocks
      ensures Valid() && multi == 0 && context == old(context)
      ensures frame == old(frame) + EmitStmt(s, old(loopCount), cont)
      ensures loopCount == old(loopCount) + StmtCount(s) && blockCount == old(blockCount) + Drift(s)
      ensures forall i :: 0 <= i < old(blockCount) ==> blocks[i] == old(blocks[i])
      decreases s, 3
    {
      hide EmitStmt, StmtCount, Drift, ScopeNeed, WellFormed;
      GroupIs(s, loopCount, cont);
      var items, i := s.items, 0;
      ghost var f, n, d, outer, rest := frame, loopCount, blockCount, context, cont;
      assert items[0..] == items;
      while i != |items|
        invariant 0 <= i <= |items| && Valid() && multi == 0 && context == outer && Continues(rest) && blockCount >= d
        invariant WellFormedItems(items[i..], rest.Some?) && blockCount + ItemsScopeNeed(items[i..]) <= BLOCK_MAX_DEPTH
        invariant frame + EmitStmts(items[i..], loopCount, rest) == f + EmitStmts(items, n, cont)
        invariant loopCount + StmtsCount(items[i..]) == n + StmtsCount(items)
        invariant blockCount + DriftItems(items[i..]) == d + DriftItems(items)
        invariant forall j :: 0 <= j < d ==> blocks[j] == old(blocks[j])
      {
        ghost var f1, n1 := frame, loopCount;
        assert items[i..][1..] == items[i + 1..];
        WalkStmt(items[i], rest);
        ghost var kept := Kept(rest, Drift(items[i]));
        Assoc(f1, EmitStmt(items[i], n1, rest), EmitStmts(items[i + 1..], loopCount, kept));
        rest := kept;
        i := i + 1;
      }
      assert items[i..] == [];
      Nothing(frame);
    }

    method WalkIf(s: Stmt, ghost cont: Option<Label>)
      requires s.If?
      requires Valid() && multi == 0 && WellFormed(s, cont.Some?) && Continues(cont) && blockCount + ScopeNeed(s) <= BLOCK_MAX_DEPTH
      modifies this`frame, this`context, this`loopCount, this`multi, this`blockCount, blocks
      ensures Valid() && multi == 0 && context == old(context)
      ensures frame == old(frame) + EmitStmt(s, old(loopCount), cont)
      ensures loopCount == old(loopCount) + StmtCount(s) && blockCount == old(blockCount) + Drift(s)
      ensures forall i :: 0 <= i < old(blockCount) ==> blocks[i] == old(blocks[i])
      decreases s, 3
    {
      hide EmitStmt, StmtCount, Drift, ScopeNeed, WellFormed, EmitExpr, ExprCount;
      IfIs(s, loopCount, cont);
      ghost var f := frame;
      loopCount := loopCount + 1;
      ghost var n := loopCount;
      var els, end := L(IfElse, loopCount), L(IfEnd, loopCount);
      var s1, s2 := [Op(JumpIfFalse(els)), Op(PopTop)], [Op(JumpAbsolute(end)), Lab(els), Op(PopTop)];
      ghost var n1 := n + ExprCount(s.cond);
      ghost var c, t, kept := EmitExpr(s.cond, n), EmitStmt(s.thn, n1, cont), Kept(cont, Drift(s.thn));
      ghost var e := if s.els.Some? then EmitStmt(s.els.value, n1 + StmtCount(s.thn), kept) else [];
      Nothing(f);
      LoadExpr(s.cond, f, []);
      Append(s1, f, [] + c);
      Inside(s.thn, cont, f, [] + c + s1);
      Append(s2, f, [] + c + s1 + t);
      Nothing([] + c + s1 + t + s2);
      if s.els.Some? { Inside(s.els.value, kept, f, [] + c + s1 + t + s2); }
      Append([Op(JumpAbsolute(end)), Lab(end)], f, [] + c + s1 + t + s2 + e);
    }

    method WalkDo(s: Stmt)
      requires s.Do?
      requires Valid() && multi == 0 && WellFormed(s, false) && blockCount + ScopeNeed(s) <= BLOCK_MAX_DEPTH
      modifies this`frame, this`context, this`loopCount, this`multi, this`blockCount, blocks
      ensures Valid() && multi == 0 && context == old(context)
      ensures frame == old(frame) + EmitStmt(s, old(loopCount), None)
      ensures loopCount == old(loopCount) + StmtCount(s) && blockCount == old(blockCount) + Drift(s)
      ensures forall i :: 0 <= i < old(blockCount) ==> blocks[i] == old(blocks[i])
      decreases s, 3
    {
      hide EmitStmt, StmtCount, Drift, ScopeNeed, WellFormed, EmitExpr, ExprCount;
      DoIs(s, loopCount);
      ghost var f := frame;
      loopCount := loopCount + 1;
      ghost var n := loopCount;
      OpenLoop(L(DoCmp, loopCount));
      var top, cmp, preEnd, end := L(DoTop, loopCount), L(DoCmp, loopCount), L(DoPreEnd, loopCount), L(DoEnd, loopCount);
      var s1, s2 := [Op(SetupLoop(end)), Lab(top)], [Lab(cmp)];
      var s3 := [Op(JumpIfFalse(preEnd)), Op(PopTop), Op(JumpAbsolute(top)), Lab(preEnd), Op(PopTop), Lab(end), Op(PopBlock)];
      ghost var b, c := EmitStmt(s.body, n, Some(cmp)), EmitExpr(s.cond, n + StmtCount(s.body));
      Nothing(f);
      Append(s1, f, []);
      Inside(s.body, Some(cmp), f, [] + s1);
      Append(s2, f, [] + s1 + b);
      LoadExpr(s.cond, f, [] + s1 + b + s2);
      Append(s3, f, [] + s1 + b + s2 + c);
      CloseLoop();
    }

    method WalkWhile(s: Stmt)
      requires s.While?
      requires Valid() && multi == 0 && WellFormed(s, false) && blockCount + ScopeNeed(s) <= BLOCK_MAX_DEPTH
      modifies this`frame, this`context, this`loopCount, this`multi, this`blockCount, blocks
      ensures Valid() && multi == 0 && context == old(context)
      ensures frame == old(frame) + EmitStmt(s, old(loopCount), None)
      ensures loopCount == old(loopCount) + StmtCount(s) && blockCount == old(blockCount) + Drift(s)
      ensures forall i :: 0 <= i < old(blockCount) ==> blocks[i] == old(blocks[i])
      decreases s, 3
    {
      hide EmitStmt, StmtCount, Drift, ScopeNeed, WellFormed, EmitExpr, ExprCount, WhileCode, WhileElseCode, WhileHead;
      WhileIs(s, loopCount);
      ghost var f := frame;
      loopCount := loopCount + 1;
      var n := loopCount;
      var top, preEnd, end := L(WhileTop, loopCount), L(WhilePreEnd, loopCount), L(WhileEnd, loopCount);
      OpenLoop(top);
      LoadWhile(s);
      ghost var n1 := n + ExprCount(s.cond);
      ghost var head, b, kept := WhileHead(s, n), EmitStmt(s.body, n1, Some(top)), Kept(Some(top), Drift(s.body));
      Inside(s.body, Some(top), f, head);
      Append([Op(JumpAbsolute(top))], f, head + b);
      ghost var e := if s.els.Some? then Some(EmitStmt(s.els.value, n1 + StmtCount(s.body), kept)) else None;
      WhileElseIs(n, e);
      ghost var done := head + b + [Op(JumpAbsolute(top))];
      Nothing(done);
      if s.els.Some? { WalkElse(s, L(WhilePreElse, n), L(WhileElse, n), end, kept, f, done); }
      Append([Lab(preEnd), Op(PopTop), Lab(end), Op(PopBlock)], f, done + WhileElseCode(n, e));
      WhileJoin(s, n, b, e);
      CloseLoop();
    }

    /** The lines of a while loop up to its body. */
    method LoadWhile(s: Stmt)
      requires s.While?
      modifies this`frame, this`context, this`loopCount
      ensures context == old(context) && loopCount == old(loopCount) + ExprCount(s.cond)
      ensures frame == old(frame) + WhileHead(s, old(loopCount))
    {
      hide EmitExpr, ExprCount;
      ghost var f, n := frame, loopCount;
      var top, els, end := L(WhileTop, loopCount), L(WhileElse, loopCount), L(WhileEnd, loopCount);
      var preElse, preEnd := L(WhilePreElse, loopCount), L(WhilePreEnd, loopCount);
      var setup := [Op(if s.els.Some? then SetupElseLoop(end, els) else SetupLoop(end)), Lab(top)];
      var first := if s.els.Some? then [Op(JumpIfFirstFalse(preElse))] else [];
      Nothing(f);
      Append(setup, f, []);
      LoadExpr(s.cond, f, [] + setup);
      Append(first, f, [] + setup + EmitExpr(s.cond, n));
      Append([Op(JumpIfFalse(preEnd)), Op(PopTop)], f, [] + setup + EmitExpr(s.cond, n) + first);
    }

    /** The else part of a while loop: entered by its first test or by a breakelse. */
    method WalkElse(s: Stmt, preElse: Label, els: Label, end: Label, ghost cont: Option<Label>, ghost base: seq<Line>, ghost done: seq<Line>)
      requires s.While? && s.els.Some? && frame == base + done
      requires Valid() && multi == 0 && WellFormed(s.els.value, cont.Some?) && Continues(cont) && blockCount + ScopeNeed(s.els.value) <= BLOCK_MAX_DEPTH
      modifies this`frame, this`context, this`loopCount, this`multi, this`blockCount, blocks
      ensures Valid() && multi == 0 && context == old(context)
      ensures frame == base + (done + ([Lab(preElse), Op(PopTop), Lab(els)] + EmitStmt(s.els.value, old(loopCount), cont) + [Op(JumpAbsolute(end))]))
      ensures loopCount == old(loopCount) + StmtCount(s.els.value) && blockCount == old(blockCount) + Drift(s.els.value)
      ensures forall i :: 0 <= i < old(blockCount) ==> blocks[i] == old(blocks[i])
      decreases s, 2
    {
      hide EmitStmt, StmtCount, Drift, ScopeNeed, WellFormed;
      var s1, s2 := [Lab(preElse), Op(PopTop), Lab(els)], [Op(JumpAbsolute(end))];
      ghost var e := EmitStmt(s.els.value, loopCount, cont);
      Append(s1, base, done);
      Inside(s.els.value, cont, base, done + s1);
      Append(s2, base, done + s1 + e);
      Assoc3(done, s1, e, s2);
    }

    method WalkFor(s: Stmt)
      requires s.For?
      requires Valid() && multi == 0 && WellFormed(s, false) && blockCount + ScopeNeed(s) <= BLOCK_MAX_DEPTH
      modifies this`frame, this`context, this`loopCount, this`multi, this`blockCount, blocks
      ensures Valid() && multi == 0 && context == old(context)
      ensures frame == old(frame) + EmitStmt(s, old(loopCount), None)
      ensures loopCount == old(loopCount) + StmtCount(s) && blockCount == old(blockCount) + Drift(s)
      ensures forall i :: 0 <= i < old(blockCount) ==> blocks[i] == old(blocks[i])
      decreases s, 3
    {
      hide EmitStmt, StmtCount, Drift, ScopeNeed, WellFormed, EmitExpr, ExprCount, ForCode, ForHead, InitCount;
      ForIs(s, loopCount);
      ghost var f := frame;
      loopCount := loopCount + 1;
      ghost var n := loopCount;
      var test, incdec, preEnd, end := L(ForTest, loopCount), L(ForIncdec, loopCount), L(ForPreEnd, loopCount), L(ForEnd, loopCount);
      OpenLoop(incdec);
      LoadFor(s);
      ghost var n2 := n + InitCount(s.init) + ExprCount(s.cond);
      ghost var n3, kept := n2 + StmtCount(s.body), Kept(Some(incdec), Drift(s.body));
      ghost var head, b, st := ForHead(s, n), EmitStmt(s.body, n2, Some(incdec)), EmitStmt(s.step, n3, kept);
      Inside(s.body, Some(incdec), f, head);
      Append([Lab(incdec)], f, head + b);
      Inside(s.step, kept, f, head + b + [Lab(incdec)]);
      Append([Op(JumpAbsolute(test)), Lab(preEnd), Op(PopTop), Lab(end), Op(PopBlock)], f, head + b + [Lab(incdec)] + st);
      ForJoin(s, n, b, st);
      CloseLoop();
    }

    /** The lines of a for loop up to its body. */
    method LoadFor(s: Stmt)
      requires s.For? && multi == 0 && (s.init.Some? ==> IsChain(s.init.value))
      modifies this`frame, this`context, this`loopCount, this`multi
      ensures multi == 0 && context == old(context) && loopCount == old(loopCount) + InitCount(s.init) + ExprCount(s.cond)
      ensures frame == old(frame) + ForHead(s, old(loopCount))
    {
      hide EmitExpr, ExprCount, EmitInit, InitCount;
      ghost var f, n := frame, loopCount;
      var init, test, preEnd, end := L(ForInit, loopCount), L(ForTest, loopCount), L(ForPreEnd, loopCount), L(ForEnd, loopCount);
      var s0, s1, s2 := [Lab(init)], [Op(SetupLoop(end)), Lab(test)], [Op(JumpIfFalse(preEnd)), Op(PopTop)];
      ghost var i, c := EmitInit(s.init, n), EmitExpr(s.cond, n + InitCount(s.init));
      Nothing(f);
      Append(s0, f, []);
      WalkInit(s.init, f, [] + s0);
      Append(s1, f, [] + s0 + i);
      LoadExpr(s.cond, f, [] + s0 + i + s1);
      Append(s2, f, [] + s0 + i + s1 + c);
    }

    /** The init part of a for loop. */
    method WalkInit(i: Option<Assign>, ghost base: seq<Line>, ghost done: seq<Line>)
      requires frame == base + done && multi == 0 && (i.Some? ==> IsChain(i.value))
      modifies this`frame, this`context, this`loopCount, this`multi
      ensures multi == 0 && context == old(context) && loopCount == old(loopCount) + InitCount(i)
      ensures frame == base + (done + EmitInit(i, old(loopCount)))
    {
      hide EmitAssign, AssignCount;
      Nothing(done);
      if i.Some? {
        ghost var n, outer := loopCount, context;
        MultiAfterChain(i.value, 0);
        Enter(Load);
        WalkAssign(i.value);
        Leave(outer, Load);
        Assoc(base, done, EmitAssign(i.value, n, 0));
      }
    }

    method WalkTry(s: Stmt, ghost cont: Option<Label>)
      requires s.Try?
      requires Valid() && multi == 0 && WellFormed(s, cont.Some?) && Continues(cont) && blockCount + ScopeNeed(s) <= BLOCK_MAX_DEPTH
      modifies this`frame, this`context, this`loopCount, this`multi, this`blockCount, blocks
      ensures Valid() && multi == 0 && context == old(context)
      ensures frame == old(frame) + EmitStmt(s, old(loopCount), cont)
      ensures loopCount == old(loopCount) + StmtCount(s) && blockCount == old(blockCount) + Drift(s)
      ensures forall i :: 0 <= i < old(blockCount) ==> blocks[i] == old(blocks[i])
      decreases s, 3
    {
      hide EmitStmt, StmtCount, Drift, ScopeNeed, WellFormed, EmitCatches, CatchesCount, DriftCatches, CatchesScopeNeed, WellFormedCatches;
      TryIs(s, loopCount, cont);
      ghost var f := frame;
      loopCount := loopCount + 1;
      ghost var n := loopCount;
      var onCatch, fin, endFin := L(TryCatch, loopCount), L(TryFinally, loopCount), L(TryEndFinally, loopCount);
      var own := loopCount;
      var s0, s1 := [Op(SetupExcept(onCatch, fin, endFin))], [Op(JumpForward(fin)), Lab(onCatch)];
      var s2, s3 := [Op(PopTop), Op(JumpForward(fin)), Lab(fin)], [Lab(endFin), Op(EndFinally)];
      ghost var kept := Kept(cont, Drift(s.body));
      ghost var last := Kept(cont, Drift(s.body) + DriftCatches(s.catches));
      ghost var b, cc := EmitStmt(s.body, n, cont), EmitCatches(s.catches, 0, n, n + StmtCount(s.body), kept);
      ghost var e := EmitStmt(s.fin, n + StmtCount(s.body) + CatchesCount(s.catches), last);
      Nothing(f);
      Append(s0, f, []);
      Inside(s.body, cont, f, [] + s0);
      Append(s1, f, [] + s0 + b);
      WalkCatches(s, own, kept, f, [] + s0 + b + s1);
      Append(s2, f, [] + s0 + b + s1 + cc);
      Inside(s.fin, last, f, [] + s0 + b + s1 + cc + s2);
      Append(s3, f, [] + s0 + b + s1 + cc + s2 + e);
    }

    /** The catches of try number own, in order. */
    method WalkCatches(s: Stmt, own: nat, ghost cont: Option<Label>, ghost base: seq<Line>, ghost done: seq<Line>)
      requires s.Try? && frame == base + done && Valid() && multi == 0 && Continues(cont)
      requires WellFormedCatches(s.catches, cont.Some?) && blockCount + CatchesScopeNeed(s.catches) <= BLOCK_MAX_DEPTH
      modifies this`frame, this`context, this`loopCount, this`multi, this`blockCount, blocks
      ensures Valid() && multi == 0 && context == old(context)
      ensures frame == base + (done + EmitCatches(s.catches, 0, own, old(loopCount), cont))
      ensures loopCount == old(loopCount) + CatchesCount(s.catches) && blockCount == old(blockCount) + DriftCatches(s.catches)
      ensures forall i :: 0 <= i < old(blockCount) ==> blocks[i] == old(blocks[i])
      decreases s, 2
    {
      hide EmitStmt, StmtCount, Drift, ScopeNeed, WellFormed, CatchCode;
      var catches, i := s.catches, 0;
      ghost var f, n, d, outer, rest := frame, loopCount, blockCount, context, cont;
      assert catches[0..] == catches;
      while i != |catches|
        invariant 0 <= i <= |catches| && Valid() && multi == 0 && context == outer && Continues(rest) && blockCount >= d
        invariant WellFormedCatches(catches[i..], rest.Some?) && blockCount + CatchesScopeNeed(catches[i..]) <= BLOCK_MAX_DEPTH
        invariant frame + EmitCatches(catches[i..], i, own, loopCount, rest) == f + EmitCatches(catches, 0, own, n, cont)
        invariant loopCount + CatchesCount(catches[i..]) == n + CatchesCount(catches)
        invariant blockCount + DriftCatches(catches[i..]) == d + DriftCatches(catches)
        invariant forall j :: 0 <= j < d ==> blocks[j] == old(blocks[j])
      {
        ghost var f1, n1, h := frame, loopCount, catches[i];
        assert catches[i..][1..] == catches[i + 1..];
        WalkCatch(catches[i], i, own, rest);
        ghost var kept := Kept(rest, Drift(h.body));
        Assoc(f1, CatchCode(own, i, h.classId, h.id, EmitStmt(h.body, n1, rest)), EmitCatches(catches[i + 1..], i + 1, own, loopCount, kept));
        rest := kept;
        i := i + 1;
      }
      assert catches[i..] == [];
      Nothing(frame);
      Assoc(base, done, EmitCatches(catches, 0, own, n, cont));
    }

    /** Compare the exception with the class, bind it, and run the handler. */
    method WalkCatch(h: Catch, i: nat, own: nat, ghost cont: Option<Label>)
      requires Valid() && multi == 0 && WellFormed(h.body, cont.Some?) && Continues(cont) && blockCount + ScopeNeed(h.body) <= BLOCK_MAX_DEPTH
      modifies this`frame, this`context, this`loopCount, this`multi, this`blockCount, blocks
      ensures Valid() && multi == 0 && context == old(context)
      ensures frame == old(frame) + CatchCode(own, i, h.classId, h.id, EmitStmt(h.body, old(loopCount), cont))
      ensures loopCount == old(loopCount) + StmtCount(h.body) && blockCount == old(blockCount) + Drift(h.body)
      ensures forall i :: 0 <= i < old(blockCount) ==> blocks[i] == old(blocks[i])
      decreases h.body, 6
    {
      hide EmitStmt, StmtCount, Drift, ScopeNeed, WellFormed;
      ghost var f, b := frame, EmitStmt(h.body, loopCount, cont);
      var matched, noMatch, fin := Label(TryMatch, own, i), Label(TryNoMatch, own, i), L(TryFinally, own);
      var s0 := if i != 0 then [Op(PopTop)] else [];
      var s1 := [Op(DupTop), Op(LoadId(h.classId)), Op(CompareEx), Op(JumpIfFalse(noMatch)), Op(PopTop), Op(StoreId(h.id)), Lab(matched)];
      Nothing(f);
      Append(s0, f, []);
      Append(s1, f, [] + s0);
      Inside(h.body, cont, f, [] + s0 + s1);
      Append([Op(JumpForward(fin)), Lab(noMatch)], f, [] + s0 + s1 + b);
    }

    /** A switch is entered as a loop, under whatever label the block table held last, and never closed. */
    method WalkSwitch(s: Stmt)
      requires s.Switch?
      requires Valid() && multi == 0 && WellFormed(s, false) && blockCount + ScopeNeed(s) <= BLOCK_MAX_DEPTH
      modifies this`frame, this`context, this`loopCount, this`multi, this`blockCount, blocks
      ensures Valid() && multi == 0 && context == old(context)
      ensures frame == old(frame) + EmitStmt(s, old(loopCount), None)
      ensures loopCount == old(loopCount) + StmtCount(s) && blockCount == old(blockCount) + Drift(s)
      ensures forall i :: 0 <= i < old(blockCount) ==> blocks[i] == old(blocks[i])
      decreases s, 3
    {
      hide EmitStmt, StmtCount, Drift, ScopeNeed, WellFormed, EmitExpr, ExprCount, EmitCases, CasesCount, DriftCases, CasesScopeNeed,
        WellFormedCases, SwitchCode;
      SwitchIs(s, loopCount);
      ghost var f := frame;
      loopCount := loopCount + 1;
      var own, count := loopCount, |s.cases|;
      OpenLoop(blocks[blockCount].to);
      ghost var e, cc := EmitExpr(s.subject, own), EmitCases(s.cases, 0, own, own + ExprCount(s.subject));
      var s1 := [Lab(L(SwitchBegin, own)), Op(SetupElseLoop(L(SwitchEnd, own), L(SwitchDefault, own)))];
      var s2 := [Lab(Label(CasePre, own, count)), Op(PopTop), Op(JumpAbsolute(L(SwitchDefault, own))),
                 Lab(Label(CaseTest, own, count)), Lab(Label(CaseBody, own, count))];
      Nothing(f);
      LoadExpr(s.subject, f, []);
      Append(s1, f, [] + e);
      var found := WalkCases(s, own, f, [] + e + s1);
      Append(s2, f, [] + e + s1 + cc);
      var s3 := if found then [] else [Lab(L(SwitchDefault, own))];
      Append(s3, f, [] + e + s1 + cc + s2);
      Append([Lab(L(SwitchEnd, own)), Op(PopBlock), Op(PopTop)], f, [] + e + s1 + cc + s2 + s3);
      SwitchJoin(own, e, cc, count, Defaults(s.cases));
    }

    /** The cases of switch number own, in order; found says that there was a default. */
    method WalkCases(s: Stmt, own: nat, ghost base: seq<Line>, ghost done: seq<Line>) returns (found: bool)
      requires s.Switch? && frame == base + done && Valid() && multi == 0
      requires WellFormedCases(s.cases) && blockCount + CasesScopeNeed(s.cases) <= BLOCK_MAX_DEPTH
      modifies this`frame, this`context, this`loopCount, this`multi, this`blockCount, blocks
      ensures Valid() && multi == 0 && context == old(context) && found == (Defaults(s.cases) > 0)
      ensures frame == base + (done + EmitCases(s.cases, 0, own, old(loopCount)))
      ensures loopCount == old(loopCount) + CasesCount(s.cases) && blockCount == old(blockCount) + DriftCases(s.cases)
      ensures forall i :: 0 <= i < old(blockCount) ==> blocks[i] == old(blocks[i])
      decreases s, 2
    {
      hide EmitCase, CaseCount, StmtCount, Drift, ScopeNeed, WellFormed;
      var cases, i := s.cases, 0;
      found := false;
      ghost var f, n, d, outer := frame, loopCount, blockCount, context;
      assert cases[0..] == cases;
      while i != |cases|
        invariant 0 <= i <= |cases| && Valid() && multi == 0 && context == outer && blockCount >= d
        invariant WellFormedCases(cases[i..]) && blockCount + CasesScopeNeed(cases[i..]) <= BLOCK_MAX_DEPTH
        invariant frame + EmitCases(cases[i..], i, own, loopCount) == f + EmitCases(cases, 0, own, n)
        invariant loopCount + CasesCount(cases[i..]) == n + CasesCount(cases)
        invariant blockCount + DriftCases(cases[i..]) == d + DriftCases(cases)
        invariant (found || Defaults(cases[i..]) > 0) == (Defaults(cases) > 0)
        invariant forall j :: 0 <= j < d ==> blocks[j] == old(blocks[j])
      {
        ghost var f1, n1 := frame, loopCount;
        assert cases[i..][1..] == cases[i + 1..];
        CaseIs(cases[i], i, own, loopCount);
        WalkCase(cases[i], i, own);
        Assoc(f1, EmitCase(cases[i], i, own, n1), EmitCases(cases[i + 1..], i + 1, own, loopCount));
        found := found || cases[i].test.None?;
        i := i + 1;
      }
      assert cases[i..] == [];
      Nothing(frame);
      Assoc(base, done, EmitCases(cases, 0, own, n));
    }

    /** A case with its test, or the default, and the jump into the body of the next case. */
    method WalkCase(c: Case, i: nat, own: nat)
      requires Valid() && multi == 0 && WellFormed(c.body, false) && blockCount + ScopeNeed(c.body) <= BLOCK_MAX_DEPTH
      modifies this`frame, this`context, this`loopCount, this`multi, this`blockCount, blocks
      ensures Valid() && multi == 0 && context == old(context)
      ensures frame == old(frame) + EmitCase(c, i, own, old(loopCount))
      ensures loopCount == old(loopCount) + CaseCount(c) && blockCount == old(blockCount) + Drift(c.body)
      ensures forall i :: 0 <= i < old(blockCount) ==> blocks[i] == old(blocks[i])
      decreases c, 0
    {
      hide EmitStmt, StmtCount, Drift, ScopeNeed, WellFormed, EmitExpr, ExprCount, EmitCase, CaseCount, CaseEntry, CaseCode;
      assert c.body < c;
      CaseIs(c, i, own, loopCount);
      ghost var f, n := frame, loopCount;
      var entry := CaseEntry(own, i, c.test.Some?);
      ghost var n1 := n + if c.test.Some? then ExprCount(c.test.value) else 0;
      ghost var b := EmitStmt(c.body, n1, None);
      Nothing(f);
      Append(entry, f, []);
      if c.test.Some? {
        var s1, s2 := [Op(DupTop)], [Op(Compare(Eq)), Op(JumpIfFalse(Label(CasePre, own, i + 1))), Op(PopTop)];
        Append(s1, f, [] + entry);
        LoadExpr(c.test.value, f, [] + entry + s1);
        Append(s2, f, [] + entry + s1 + EmitExpr(c.test.value, n));
        Assoc3([] + entry, s1, EmitExpr(c.test.value, n), s2);
      } else {
        Append([Lab(L(SwitchDefault, own))], f, [] + entry);
      }
      ghost var test := if c.test.Some? then Some(EmitExpr(c.test.value, n)) else None;
      ghost var head := [] + entry + CaseTestCode(own, i, test);
      Append([Lab(Label(CaseBody, own, i))], f, head);
      Inside(c.body, None, f, head + [Lab(Label(CaseBody, own, i))]);
      Append([Op(JumpAbsolute(Label(CaseBody, own, i + 1)))], f, head + [Lab(Label(CaseBody, own, i))] + b);
      CaseJoin(own, i, test, b);
    }

    // ----- foreach -----

    /** A foreach, in the context of any enclosing statement. */
    method WalkForeach(s: Foreach)
      requires Valid() && multi == 0 && Iterable(s) && blockCount + ForeachScopes(s) <= BLOCK_MAX_DEPTH
      modifies this`frame, this`context, this`loopCount, this`multi, this`blockCount, blocks
      ensures Valid() && multi == 0 && context == old(context)
      ensures frame == old(frame) + ForeachBody(s, old(loopCount) + 1)
      ensures loopCount == old(loopCount) + ForeachCount(s)
      ensures blockCount == old(blockCount) + Drift(s.body) + (if s.els.Some? then Drift(s.els.value) else 0)
      ensures forall i :: 0 <= i < old(blockCount) ==> blocks[i] == old(blocks[i])
    {
      hide EmitStmt, StmtCount, Drift, ScopeNeed, WellFormed, EmitExpr, ExprCount, ForeachHead, ForeachElseCode, Stores, ForeachTail, ForeachScopes;
      ScopesIs(s);
      ghost var f := frame;
      loopCount := loopCount + 1;
      var n, top := loopCount, L(ForeachLoop, loopCount);
      OpenLoop(top);
      ghost var c, e := EmitExpr(s.subject, n), ElseBody(s, n);
      ghost var n1 := n + ExprCount(s.subject);
      ghost var head, b := ForeachHead(n, |s.names|, s.els.Some?), EmitStmt(s.body, n1, Some(top));
      var jump := [Op(JumpAbsolute(top))];
      Nothing(f);
      LoadExpr(s.subject, f, []);
      OpenRound(s, n, f, [] + c);
      StoreNames(s.names, f, [] + c + head);
      Inside(s.body, Some(top), f, [] + c + head + Stores(s.names));
      ghost var done := [] + c + head + Stores(s.names) + b + jump;
      Append(jump, f, [] + c + head + Stores(s.names) + b);
      Nothing(done);
      if s.els.Some? { WalkForeachElse(s, n, Kept(Some(top), Drift(s.body)), f, done); } else { NoElsePart(n, |s.names|); }
      ghost var done2 := done + ForeachElseCode(n, |s.names|, e);
      CloseForeach(n, |s.names|, f, done2);
      CloseLoop();
    }

    /** The lines between the subject and the stores. */
    method OpenRound(s: Foreach, n: nat, ghost base: seq<Line>, ghost done: seq<Line>)
      requires frame == base + done
      modifies this`frame
      ensures frame == base + (done + ForeachHead(n, |s.names|, s.els.Some?))
    {
      var setup := Op(if s.els.Some? then SetupElseLoop(L(ForeachEnd, n), L(ForeachElse, n)) else SetupLoop(L(ForeachEnd, n)));
      var s1 := [Op(IterReset), setup, Lab(L(ForeachLoop, n)), Op(DupTop), Op(IterFetch(|s.names|))];
      var s2 := if s.els.Some? then [Op(JumpIfFirstFalse(L(ForeachPreElse, n)))] else [];
      var s3 := [Op(JumpIfFalse(L(ForeachPreEnd, n))), Op(PopTop)];
      Append(s1, base, done);
      Append(s2, base, done + s1);
      Append(s3, base, done + s1 + s2);
      Assoc3(done, s1, s2, s3);
    }

    /** Up to three names, each in a store context of its own. */
    method StoreNames(names: seq<Id>, ghost base: seq<Line>, ghost done: seq<Line>)
      requires frame == base + done && 1 <= |names| <= 3
      modifies this`frame, this`context
      ensures context == old(context) && frame == base + (done + Stores(names))
    {
      StoreName(names[0]);
      if |names| >= 2 { StoreName(names[1]); }
      if |names| >= 3 { StoreName(names[2]); }
      assert frame == base + (done + Stores(names));
    }

    method StoreName(id: Id)
      modifies this`frame, this`context
      ensures context == old(context) && frame == old(frame) + [Op(StoreId(id))]
    {
      ghost var outer := context;
      Enter(Store);
      LoadOrStore(id);
      Leave(outer, Store);
    }

    /** Drop the values that were meant for the names. */
    method PopNames(count: nat, ghost base: seq<Line>, ghost done: seq<Line>)
      requires frame == base + done
      modifies this`frame
      ensures frame == base + (done + PopLines(count))
    {
      var i := 0;
      while i != count
        invariant 0 <= i <= count && frame == base + (done + PopLines(i))
      {
        frame := frame + [Op(PopTop)];
        i := i + 1;
        assert frame == base + (done + PopLines(i));
      }
    }

    method CloseForeach(n: nat, count: nat, ghost base: seq<Line>, ghost done: seq<Line>)
      requires frame == base + done
      modifies this`frame
      ensures frame == base + (done + ForeachTail(n, count))
    {
      hide PopLines;
      var s1, s2 := [Lab(L(ForeachPreEnd, n)), Op(PopTop)], [Lab(L(ForeachEnd, n)), Op(PopBlock)];
      Append(s1, base, done);
      PopNames(count, base, done + s1);
      Append(s2, base, done + s1 + PopLines(count));
      Assoc3(done, s1, PopLines(count), s2);
    }

    method WalkForeachElse(s: Foreach, n: nat, ghost cont: Option<Label>, ghost base: seq<Line>, ghost done: seq<Line>)
      requires s.els.Some? && frame == base + done
      requires Valid() && multi == 0 && WellFormed(s.els.value, cont.Some?) && Continues(cont) && blockCount + ScopeNeed(s.els.value) <= BLOCK_MAX_DEPTH
      modifies this`frame, this`context, this`loopCount, this`multi, this`blockCount, blocks
      ensures Valid() && multi == 0 && context == old(context)
      ensures frame == base + (done + ForeachElseCode(n, |s.names|, Some(EmitStmt(s.els.value, old(loopCount), cont))))
      ensures loopCount == old(loopCount) + StmtCount(s.els.value) && blockCount == old(blockCount) + Drift(s.els.value)
      ensures forall i :: 0 <= i < old(blockCount) ==> blocks[i] == old(blocks[i])
    {
      hide EmitStmt, StmtCount, Drift, ScopeNeed, WellFormed, PopLines;
      var s1, s2, s3 := [Lab(L(ForeachPreElse, n)), Op(PopTop)], [Lab(L(ForeachElse, n))], [Op(JumpAbsolute(L(ForeachEnd, n)))];
      ghost var e, pops := EmitStmt(s.els.value, loopCount, cont), PopLines(|s.names|);
      Append(s1, base, done);
      PopNames(|s.names|, base, done + s1);
      Append(s2, base, done + s1 + pops);
      Inside(s.els.value, cont, base, done + s1 + pops + s2);
      Append(s3, base, done + s1 + pops + s2 + e);
      Assoc5(done, s1, pops, s2, e, s3);
    }
  }

  /** Walk the tree of a frame from a fresh state, and add the return at its end if it is asked for. */
  method CompileFrame(s: Stmt, main: bool, append: bool) returns (code: seq<Line>)
    requires WellFormed(s, false) && ScopeNeed(s) <= BLOCK_MAX_DEPTH
    ensures code == FrameCode(s, main, append)
  {
    hide EmitStmt, WellFormed, ScopeNeed;
    var w := new Walker();
    w.WalkStmt(s, None);
    Nothing(EmitStmt(s, 0, None));
    Nothing(w.frame);
    code := w.frame;
    if append {
      code := code + [Op(if main then LoadConst(Num(0)) else LoadId("self")), Op(Instr.Return)];
    }
  }

  lemma TryIs(s: Stmt, n: nat, cont: Option<Label>)
    requires s.Try?
    ensures var n1 := n + 1 + StmtCount(s.body);
            && StmtCount(s) == 1 + StmtCount(s.body) + CatchesCount(s.catches) + StmtCount(s.fin)
            && EmitStmt(s, n, cont) == TryCode(n + 1, EmitStmt(s.body, n + 1, cont), EmitCatches(s.catches, 0, n + 1, n1, Kept(cont, Drift(s.body))),
                 EmitStmt(s.fin, n1 + CatchesCount(s.catches), Kept(cont, Drift(s.body) + DriftCatches(s.catches))))
    ensures Drift(s) == Drift(s.body) + DriftCatches(s.catches) + Drift(s.fin)
    ensures ScopeNeed(s.body) <= ScopeNeed(s) && Drift(s.body) + CatchesScopeNeed(s.catches) <= ScopeNeed(s)
    ensures Drift(s.body) + DriftCatches(s.catches) + ScopeNeed(s.fin) <= ScopeNeed(s)
    ensures WellFormed(s, cont.Some?) ==>
              && WellFormed(s.body, cont.Some?) && WellFormedCatches(s.catches, Kept(cont, Drift(s.body)).Some?)
              && WellFormed(s.fin, Kept(cont, Drift(s.body) + DriftCatches(s.catches)).Some?)
  {
    hide TryCode, EmitCatches, CatchesCount, DriftCatches, CatchesScopeNeed, WellFormedCatches;
  }

  lemma SwitchIs(s: Stmt, n: nat)
    requires s.Switch?
    ensures StmtCount(s) == 1 + ExprCount(s.subject) + CasesCount(s.cases)
    ensures EmitStmt(s, n, None) == SwitchCode(n + 1, EmitExpr(s.subject, n + 1), EmitCases(s.cases, 0, n + 1, n + 1 + ExprCount(s.subject)),
                                               |s.cases|, Defaults(s.cases))
    ensures Drift(s) == 1 + DriftCases(s.cases) && ScopeNeed(s) == 1 + CasesScopeNeed(s.cases)
    ensures WellFormed(s, false) ==> WellFormedCases(s.cases)
  {
    hide EmitExpr, ExprCount, SwitchCode;
  }

  lemma SwitchJoin(n: nat, e: seq<Line>, cases: seq<Line>, count: nat, defaults: nat)
    ensures SwitchCode(n, e, cases, count, defaults)
         == [] + e + [Lab(L(SwitchBegin, n)), Op(SetupElseLoop(L(SwitchEnd, n), L(SwitchDefault, n)))] + cases
            + [Lab(Label(CasePre, n, count)), Op(PopTop), Op(JumpAbsolute(L(SwitchDefault, n))),
               Lab(Label(CaseTest, n, count)), Lab(Label(CaseBody, n, count))]
            + (if defaults > 0 then [] else [Lab(L(SwitchDefault, n))])
            + [Lab(L(SwitchEnd, n)), Op(PopBlock), Op(PopTop)]
  {
    Nothing([]);
  }

  lemma CaseIs(c: Case, i: nat, own: nat, n: nat)
    ensures var k := if c.test.Some? then ExprCount(c.test.value) else 0;
            && CaseCount(c) == k + StmtCount(c.body)
            && EmitCase(c, i, own, n)
               == CaseCode(own, i, if c.test.Some? then Some(EmitExpr(c.test.value, n)) else None, EmitStmt(c.body, n + k, None))
  {
    hide EmitExpr, ExprCount, CaseCode, EmitStmt, StmtCount;
  }

  lemma CaseJoin(n: nat, i: nat, test: Option<seq<Line>>, b: seq<Line>)
    ensures CaseCode(n, i, test, b)
         == [] + CaseEntry(n, i, test.Some?) + CaseTestCode(n, i, test) + [Lab(Label(CaseBody, n, i))] + b
            + [Op(JumpAbsolute(Label(CaseBody, n, i + 1)))]
  {
    hide CaseEntry;
    Nothing([]);
  }

  /** Loops and switches do not depend on the loop around them. */
  lemma LoopIs(s: Stmt, n: nat, cont: Option<Label>)
    requires s.While? || s.Do? || s.For? || s.Switch?
    ensures EmitStmt(s, n, cont) == EmitStmt(s, n, None) && WellFormed(s, cont.Some?) == WellFormed(s, false)
  {
    hide EmitExpr, ExprCount, EmitAssign, WhileCode, DoCode, ForCode, SwitchCode, StmtCount, Drift;
  }

  lemma WhileIs(s: Stmt, n: nat)
    requires s.While?
    ensures StmtCount(s) == 1 + ExprCount(s.cond) + StmtCount(s.body) + (if s.els.Some? then StmtCount(s.els.value) else 0)
    ensures var n1, here := n + 1 + ExprCount(s.cond), Some(L(WhileTop, n + 1));
            EmitStmt(s, n, None) == WhileCode(n + 1, EmitExpr(s.cond, n + 1), EmitStmt(s.body, n1, here),
              if s.els.Some? then Some(EmitStmt(s.els.value, n1 + StmtCount(s.body), Kept(here, Drift(s.body)))) else None)
    ensures Drift(s) == Drift(s.body) + (if s.els.Some? then Drift(s.els.value) else 0)
    ensures 1 + ScopeNeed(s.body) <= ScopeNeed(s) && (s.els.Some? ==> 1 + Drift(s.body) + ScopeNeed(s.els.value) <= ScopeNeed(s))
    ensures WellFormed(s, false) ==> WellFormed(s.body, true) && (s.els.Some? ==> WellFormed(s.els.value, Drift(s.body) == 0))
  {
    hide EmitExpr, ExprCount, WhileCode;
  }

  lemma ScopesIs(s: Foreach)
    ensures 1 + ScopeNeed(s.body) <= ForeachScopes(s) && (s.els.Some? ==> 1 + Drift(s.body) + ScopeNeed(s.els.value) <= ForeachScopes(s))
  {
    hide ScopeNeed, Drift;
  }

  lemma Assoc5(a: seq<Line>, b: seq<Line>, c: seq<Line>, d: seq<Line>, e: seq<Line>, f: seq<Line>)
    ensures a + b + c + d + e + f == a + (b + c + d + e + f)
  {
  }

  lemma NoElsePart(n: nat, k: nat)
    ensures ForeachElseCode(n, k, None) == []
  {
  }

  lemma Assoc3(a: seq<Line>, b: seq<Line>, c: seq<Line>, d: seq<Line>)
    ensures a + b + c + d == a + (b + c + d)
  {
  }

  lemma WhileElseIs(n: nat, e: Option<seq<Line>>)
    ensures WhileElseCode(n, e) == if e.None? then [] else
              [Lab(L(WhilePreElse, n)), Op(PopTop), Lab(L(WhileElse, n))] + e.value + [Op(JumpAbsolute(L(WhileEnd, n)))]
  {
  }

  /** The lines of loop number n up to its body. */
  function WhileHead(s: Stmt, n: nat): seq<Line>
    requires s.While?
  {
    [] + [Op(if s.els.Some? then SetupElseLoop(L(WhileEnd, n), L(WhileElse, n)) else SetupLoop(L(WhileEnd, n))), Lab(L(WhileTop, n))]
    + EmitExpr(s.cond, n)
    + (if s.els.Some? then [Op(JumpIfFirstFalse(L(WhilePreElse, n)))] else [])
    + [Op(JumpIfFalse(L(WhilePreEnd, n))), Op(PopTop)]
  }

  function ForHead(s: Stmt, n: nat): seq<Line>
    requires s.For?
  {
    [] + [Lab(L(ForInit, n))] + EmitInit(s.init, n) + [Op(SetupLoop(L(ForEnd, n))), Lab(L(ForTest, n))]
    + EmitExpr(s.cond, n + InitCount(s.init)) + [Op(JumpIfFalse(L(ForPreEnd, n))), Op(PopTop)]
  }

  lemma WhileJoin(s: Stmt, n: nat, b: seq<Line>, e: Option<seq<Line>>)
    requires s.While? && s.els.Some? == e.Some?
    ensures WhileCode(n, EmitExpr(s.cond, n), b, e)
         == WhileHead(s, n) + b + [Op(JumpAbsolute(L(WhileTop, n)))] + WhileElseCode(n, e)
            + [Lab(L(WhilePreEnd, n)), Op(PopTop), Lab(L(WhileEnd, n)), Op(PopBlock)]
  {
    hide WhileElseCode, EmitExpr;
    var head := [Op(if e.Some? then SetupElseLoop(L(WhileEnd, n), L(WhileElse, n)) else SetupLoop(L(WhileEnd, n))), Lab(L(WhileTop, n))]
                + EmitExpr(s.cond, n) + (if e.Some? then [Op(JumpIfFirstFalse(L(WhilePreElse, n)))] else []);
    Nothing([]);
    Assoc3(head, [Op(JumpIfFalse(L(WhilePreEnd, n))), Op(PopTop)], b, [Op(JumpAbsolute(L(WhileTop, n)))]);
  }

  lemma ForJoin(s: Stmt, n: nat, b: seq<Line>, st: seq<Line>)
    requires s.For?
    ensures ForCode(n, EmitInit(s.init, n), EmitExpr(s.cond, n + InitCount(s.init)), b, st)
         == ForHead(s, n) + b + [Lab(L(ForIncdec, n))] + st
            + [Op(JumpAbsolute(L(ForTest, n))), Lab(L(ForPreEnd, n)), Op(PopTop), Lab(L(ForEnd, n)), Op(PopBlock)]
  {
    hide EmitExpr, EmitInit, InitCount;
    Nothing([]);
  }

  lemma ForIs(s: Stmt, n: nat)
    requires s.For?
    ensures var n1 := n + 1 + InitCount(s.init);
            var n2, here := n1 + ExprCount(s.cond), Some(L(ForIncdec, n + 1));
            && StmtCount(s) == 1 + InitCount(s.init) + ExprCount(s.cond) + StmtCount(s.body) + StmtCount(s.step)
            && EmitStmt(s, n, None) == ForCode(n + 1, EmitInit(s.init, n + 1), EmitExpr(s.cond, n1), EmitStmt(s.body, n2, here),
                                               EmitStmt(s.step, n2 + StmtCount(s.body), Kept(here, Drift(s.body))))
    ensures Drift(s) == Drift(s.body) + Drift(s.step)
    ensures 1 + ScopeNeed(s.body) <= ScopeNeed(s) && 1 + Drift(s.body) + ScopeNeed(s.step) <= ScopeNeed(s)
    ensures WellFormed(s, false) ==> (s.init.Some? ==> IsChain(s.init.value)) && WellFormed(s.body, true) && WellFormed(s.step, Drift(s.body) == 0)
  {
    hide EmitExpr, ExprCount, ForCode, EmitAssign, AssignCount;
  }

  lemma IfIs(s: Stmt, n: nat, cont: Option<Label>)
    requires s.If?
    ensures var n1 := n + 1 + ExprCount(s.cond);
            && StmtCount(s) == 1 + ExprCount(s.cond) + StmtCount(s.thn) + (if s.els.Some? then StmtCount(s.els.value) else 0)
            && EmitStmt(s, n, cont) == IfCode(n + 1, EmitExpr(s.cond, n + 1), EmitStmt(s.thn, n1, cont),
                 if s.els.Some? then EmitStmt(s.els.value, n1 + StmtCount(s.thn), Kept(cont, Drift(s.thn))) else [])
    ensures Drift(s) == Drift(s.thn) + (if s.els.Some? then Drift(s.els.value) else 0)
    ensures ScopeNeed(s.thn) <= ScopeNeed(s) && (s.els.Some? ==> Drift(s.thn) + ScopeNeed(s.els.value) <= ScopeNeed(s))
    ensures WellFormed(s, cont.Some?) ==>
              WellFormed(s.thn, cont.Some?) && (s.els.Some? ==> WellFormed(s.els.value, Kept(cont, Drift(s.thn)).Some?))
  {
    hide EmitExpr, ExprCount, IfCode;
  }

  lemma DoIs(s: Stmt, n: nat)
    requires s.Do?
    ensures StmtCount(s) == 1 + StmtCount(s.body) + ExprCount(s.cond)
    ensures EmitStmt(s, n, None)
         == DoCode(n + 1, EmitStmt(s.body, n + 1, Some(L(DoCmp, n + 1))), EmitExpr(s.cond, n + 1 + StmtCount(s.body)))
    ensures Drift(s) == Drift(s.body) && ScopeNeed(s) == 1 + ScopeNeed(s.body)
    ensures WellFormed(s, false) ==> WellFormed(s.body, true)
  {
  }

  lemma GroupIs(s: Stmt, n: nat, cont: Option<Label>)
    requires s.Group?
    ensures EmitStmt(s, n, cont) == EmitStmts(s.items, n, cont) && StmtCount(s) == StmtsCount(s.items)
    ensures Drift(s) == DriftItems(s.items) && ScopeNeed(s) == ItemsScopeNeed(s.items)
    ensures WellFormed(s, cont.Some?) == WellFormedItems(s.items, cont.Some?)
  {
  }

  lemma AssignIs(a: Assign, n: nat, m: nat, former: seq<Line>, rhs: seq<Line>)
    requires former == EmitOld(a, n) && rhs == EmitRhs(a.rhs, n + (if a.op.Some? then ExprCount(a.target) else 0), m)
    ensures EmitAssign(a, n, m) == former + rhs + EmitAssigned(a, Pending(a.rhs, m) > 0)
  {
    hide EmitExpr, ExprCount, EmitRhs, EmitAssigned;
  }

  lemma Nothing(a: seq<Line>)
    ensures a + [] == a && forall b: seq<Line> {:trigger [] + b} :: [] + b == b
  {
  }

  lemma Assoc(a: seq<Line>, b: seq<Line>, c: seq<Line>)
    ensures a + b + c == a + (b + c)
  {
  }
}
