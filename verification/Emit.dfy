/** The code that the statement compiler appends to a frame, as a function of the syntax tree.
    `n` is the compiler's label counter on entry.  `cont` is the label of the innermost loop,
    where `continue` goes; it is lost once a `switch` has been opened in that loop. */
module Emit {
  import opened Values
  import opened Syntax
  import opened Assembly

  type Snippet = seq<Line>

  function Op(i: Instr<Label>): Line { Code(i) }

  function L(k: LabelKind, n: nat): Label { Label(k, n, 0) }

  // ----- how many labels a construct numbers -----

  function ExprCount(e: Expr): nat
    decreases e, 1
  {
    match e
    case Operator(_, l, r) => ExprCount(l) + ExprCount(r)
    case Comparison(_, l, r) => ExprCount(l) + ExprCount(r)
    case And(l, r) => 1 + ExprCount(l) + ExprCount(r)
    case Or(l, r) => 1 + ExprCount(l) + ExprCount(r)
    case Coalesce(l, r) => 1 + ExprCount(l) + ExprCount(r)
    case Ternary(c, t, f) => 1 + ExprCount(c) + ExprCount(t) + ExprCount(f)
    case TupleLit(elems) => ItemsCount(elems)
    case _ => 0
  }

  function ItemsCount(elems: seq<Expr>): nat
    decreases elems, 0
  {
    if elems == [] then 0 else ExprCount(elems[0]) + ItemsCount(elems[1..])
  }

  function AssignCount(a: Assign): nat {
    (if a.op.Some? then ExprCount(a.target) else 0)
    + match a.rhs case Plain(e) => ExprCount(e) case Chain(b) => AssignCount(b)
  }

  function InitCount(i: Option<Assign>): nat {
    if i.Some? then AssignCount(i.value) else 0
  }

  function StmtCount(s: Stmt): nat
    decreases s, 1
  {
    match s
    case Let(a) => AssignCount(a)
    case Group(items) => StmtsCount(items)
    case If(c, t, e) => 1 + ExprCount(c) + StmtCount(t) + (if e.Some? then StmtCount(e.value) else 0)
    case While(c, b, e) => 1 + ExprCount(c) + StmtCount(b) + (if e.Some? then StmtCount(e.value) else 0)
    case Do(b, c) => 1 + StmtCount(b) + ExprCount(c)
    case For(i, c, st, b) => 1 + InitCount(i) + ExprCount(c) + StmtCount(b) + StmtCount(st)
    case Switch(e, cases) => 1 + ExprCount(e) + CasesCount(cases)
    case Try(b, catches, f) => 1 + StmtCount(b) + CatchesCount(catches) + StmtCount(f)
    case Throw(e) => ExprCount(e)
    case Return(e) => ExprCount(e)
    case _ => 0
  }

  function StmtsCount(items: seq<Stmt>): nat
    decreases items, 0
  {
    if items == [] then 0 else StmtCount(items[0]) + StmtsCount(items[1..])
  }

  function CaseCount(c: Case): nat
    decreases c, 2
  {
    assert c.body < c;
    (if c.test.Some? then ExprCount(c.test.value) else 0) + StmtCount(c.body)
  }

  function CasesCount(cases: seq<Case>): nat
    decreases cases, 0
  {
    if cases == [] then 0 else
    assert cases[0].body < cases[0];
    (if cases[0].test.Some? then ExprCount(cases[0].test.value) else 0) + StmtCount(cases[0].body)
    + CasesCount(cases[1..])
  }

  function CatchesCount(catches: seq<Catch>): nat
    decreases catches, 0
  {
    if catches == [] then 0 else StmtCount(catches[0].body) + CatchesCount(catches[1..])
  }

  // ----- expressions -----

  function EmitExpr(e: Expr, n: nat): Snippet
    decreases e, 1
  {
    match e
    case Const(v) => [Op(LoadConst(v))]
    case NullLit => [Op(LoadId("null"))]
    case Name(id) => [Op(LoadId(id))]
    case Operator(op, l, r) =>
      TwoCode(EmitExpr(l, n), EmitExpr(r, n + ExprCount(l)), Operate(op))
    case Comparison(cmp, l, r) =>
      TwoCode(EmitExpr(r, n), EmitExpr(l, n + ExprCount(r)), Compare(cmp))
    case And(l, r) =>
      ShortCode(JumpIfFalse(L(AndEnd, n + 1)), L(AndEnd, n + 1), EmitExpr(l, n + 1), EmitExpr(r, n + 1 + ExprCount(l)))
    case Or(l, r) =>
      ShortCode(JumpIfTrue(L(OrEnd, n + 1)), L(OrEnd, n + 1), EmitExpr(l, n + 1), EmitExpr(r, n + 1 + ExprCount(l)))
    case Coalesce(l, r) =>
      CoalesceCode(n + 1, EmitExpr(l, n + 1), EmitExpr(r, n + 1 + ExprCount(l)))
    case Ternary(c, t, f) =>
      TernaryCode(n + 1, EmitExpr(c, n + 1), EmitExpr(t, n + 1 + ExprCount(c)),
                  EmitExpr(f, n + 1 + ExprCount(c) + ExprCount(t)))
    case TupleLit(elems) =>
      EmitItems(elems, n) + [Op(PackTuple(|elems|))]
  }

  function TwoCode(first: Snippet, second: Snippet, i: Instr<Label>): Snippet {
    first + second + [Op(i)]
  }

  function ShortCode(i: Instr<Label>, end: Label, l: Snippet, r: Snippet): Snippet {
    l + [Op(i), Op(PopTop)] + r + [Lab(end)]
  }

  function CoalesceCode(n: nat, l: Snippet, r: Snippet): Snippet {
    l + [Op(DupTop), Op(JumpIfFalse(L(CoalesceDefault, n))), Op(PopTop), Op(JumpAbsolute(L(CoalesceEnd, n))),
         Lab(L(CoalesceDefault, n)), Op(PopTop), Op(PopTop)]
    + r + [Op(JumpAbsolute(L(CoalesceEnd, n))), Lab(L(CoalesceEnd, n))]
  }

  function TernaryCode(n: nat, c: Snippet, t: Snippet, f: Snippet): Snippet {
    c + [Op(JumpIfFalse(L(TernaryElse, n))), Op(PopTop)]
    + t + [Op(JumpAbsolute(L(TernaryEnd, n))), Lab(L(TernaryElse, n)), Op(PopTop)]
    + f + [Op(JumpAbsolute(L(TernaryEnd, n))), Lab(L(TernaryEnd, n))]
  }

  function EmitItems(elems: seq<Expr>, n: nat): Snippet
    decreases elems, 0
  {
    if elems == [] then [] else EmitExpr(elems[0], n) + EmitItems(elems[1..], n + ExprCount(elems[0]))
  }

  // The code of one expression around the code of its parts.

  /** The operand that is evaluated first, and the other one. */
  function FirstOf(e: Expr): Expr
    requires e.Operator? || e.Comparison?
  {
    if e.Operator? then e.l else e.r
  }

  function SecondOf(e: Expr): Expr
    requires e.Operator? || e.Comparison?
  {
    if e.Operator? then e.r else e.l
  }

  lemma TwoIs(e: Expr, n: nat)
    requires e.Operator? || e.Comparison?
    ensures ExprCount(e) == ExprCount(FirstOf(e)) + ExprCount(SecondOf(e))
    ensures EmitExpr(e, n) == TwoCode(EmitExpr(FirstOf(e), n), EmitExpr(SecondOf(e), n + ExprCount(FirstOf(e))),
                                      if e.Operator? then Operate(e.op) else Compare(e.cmp))
  {
    hide TwoCode, ShortCode, CoalesceCode, TernaryCode, EmitItems, ItemsCount;
  }

  lemma BoolIs(e: Expr, n: nat)
    requires e.And? || e.Or?
    ensures ExprCount(e) == 1 + ExprCount(e.l) + ExprCount(e.r)
    ensures var end := L(if e.And? then AndEnd else OrEnd, n + 1);
            EmitExpr(e, n) == ShortCode(if e.And? then JumpIfFalse(end) else JumpIfTrue(end), end,
                                        EmitExpr(e.l, n + 1), EmitExpr(e.r, n + 1 + ExprCount(e.l)))
  {
    hide TwoCode, ShortCode, CoalesceCode, TernaryCode, EmitItems, ItemsCount;
  }

  lemma CoalesceIs(e: Expr, n: nat)
    requires e.Coalesce?
    ensures ExprCount(e) == 1 + ExprCount(e.l) + ExprCount(e.r)
    ensures EmitExpr(e, n) == CoalesceCode(n + 1, EmitExpr(e.l, n + 1), EmitExpr(e.r, n + 1 + ExprCount(e.l)))
  {
    hide TwoCode, ShortCode, CoalesceCode, TernaryCode, EmitItems, ItemsCount;
  }

  lemma TernaryIs(e: Expr, n: nat)
    requires e.Ternary?
    ensures ExprCount(e) == 1 + ExprCount(e.c) + ExprCount(e.t) + ExprCount(e.e)
    ensures EmitExpr(e, n) == TernaryCode(n + 1, EmitExpr(e.c, n + 1), EmitExpr(e.t, n + 1 + ExprCount(e.c)),
                                          EmitExpr(e.e, n + 1 + ExprCount(e.c) + ExprCount(e.t)))
  {
    hide TwoCode, ShortCode, CoalesceCode, TernaryCode, EmitItems, ItemsCount;
  }

  // ----- assignments -----

  /** The walk of an assignment target in store context.  Tuple targets are unpacked and stored from
      the last element to the first.  (Nothing but names and tuples is a target here.) */
  function EmitStore(t: Expr): Snippet
    decreases t, 1
  {
    match t
    case Name(id) => [Op(StoreId(id))]
    case TupleLit(elems) => [Op(UnpackTuple(|elems|))] + EmitStoreItems(elems)
    case _ => []
  }

  function EmitStoreItems(ts: seq<Expr>): Snippet
    decreases ts, 0
  {
    if ts == [] then [] else EmitStore(ts[|ts| - 1]) + EmitStoreItems(ts[..|ts| - 1])
  }

  /** The counter of pending assignments of a chain, `multi_assignment`, after walking an assignment
      that was entered with m. */
  function MultiAfter(a: Assign, m: nat): nat {
    if Pending(a.rhs, m) > 0 then Pending(a.rhs, m) - 1 else 0
  }

  /** The counter once the right side has been walked. */
  function Pending(rhs: Rhs, m: nat): nat {
    match rhs case Plain(_) => m case Chain(b) => MultiAfter(b, m + 1)
  }

  /** A chain entered with the counter at m leaves it at m - 1, or at 0. */
  lemma {:induction false} MultiAfterChain(a: Assign, m: nat)
    ensures MultiAfter(a, m) == if m == 0 then 0 else m - 1
  {
    if a.rhs.Chain? { MultiAfterChain(a.rhs.a, m + 1); }
  }

  lemma PendingSame(rhs: Rhs, m: nat)
    ensures Pending(rhs, m) == m
  {
    if rhs.Chain? { MultiAfterChain(rhs.a, m + 1); }
  }

  /** The code of an assignment entered with the chain counter at m. */
  function EmitAssign(a: Assign, n: nat, m: nat): Snippet
    decreases a, 1
  {
    EmitOld(a, n)
    + EmitRhs(a.rhs, n + (if a.op.Some? then ExprCount(a.target) else 0), m)
    + EmitAssigned(a, Pending(a.rhs, m) > 0)
  }

  function EmitOld(a: Assign, n: nat): Snippet {
    if a.op.Some? then EmitExpr(a.target, n) else []
  }

  function EmitRhs(rhs: Rhs, n: nat, m: nat): Snippet
    decreases rhs, 0
  {
    match rhs case Plain(e) => EmitExpr(e, n) case Chain(b) => EmitAssign(b, n, m + 1)
  }

  /** Combine, duplicate the value if it is wanted further out, and store. */
  function EmitAssigned(a: Assign, keep: bool): Snippet {
    (if a.op.Some? then [Op(Operate(a.op.value))] else [])
    + (if keep then [Op(DupTop)] else [])
    + EmitStore(a.target)
  }

  // ----- statements -----

  /** The `continue` label that is left after a statement. */
  function Kept(cont: Option<Label>, drift: nat): Option<Label> {
    if drift == 0 then cont else None
  }

  function EmitStmt(s: Stmt, n: nat, cont: Option<Label>): Snippet
    decreases s, 3
  {
    match s
    case Nop => []
    case Let(a) => EmitAssign(a, n, 0)
    case Group(items) => EmitStmts(items, n, cont)
    case If(c, t, e) =>
      var n1 := n + 1 + ExprCount(c);
      IfCode(n + 1, EmitExpr(c, n + 1), EmitStmt(t, n1, cont),
             if e.Some? then EmitStmt(e.value, n1 + StmtCount(t), Kept(cont, Drift(t))) else [])
    case While(c, b, e) =>
      var n1 := n + 1 + ExprCount(c);
      var here := Some(L(WhileTop, n + 1));
      WhileCode(n + 1, EmitExpr(c, n + 1), EmitStmt(b, n1, here),
                if e.Some? then Some(EmitStmt(e.value, n1 + StmtCount(b), Kept(here, Drift(b)))) else None)
    case Do(b, c) =>
      DoCode(n + 1, EmitStmt(b, n + 1, Some(L(DoCmp, n + 1))), EmitExpr(c, n + 1 + StmtCount(b)))
    case For(i, c, st, b) =>
      var n1 := n + 1 + InitCount(i);
      var n2 := n1 + ExprCount(c);
      var here := Some(L(ForIncdec, n + 1));
      ForCode(n + 1, EmitInit(i, n + 1), EmitExpr(c, n1), EmitStmt(b, n2, here),
              EmitStmt(st, n2 + StmtCount(b), Kept(here, Drift(b))))
    case Break => [Op(BreakLoop)]
    case BreakElse => [Op(BreakElseLoop)]
    case Continue => if cont.Some? then [Op(ContinueLoop(cont.value))] else []
    case Switch(e, cases) =>
      SwitchCode(n + 1, EmitExpr(e, n + 1), EmitCases(cases, 0, n + 1, n + 1 + ExprCount(e)), |cases|, Defaults(cases))
    case Try(b, catches, f) =>
      var n1 := n + 1 + StmtCount(b);
      TryCode(n + 1, EmitStmt(b, n + 1, cont), EmitCatches(catches, 0, n + 1, n1, Kept(cont, Drift(b))),
              EmitStmt(f, n1 + CatchesCount(catches), Kept(cont, Drift(b) + DriftCatches(catches))))
    case Throw(e) => EmitExpr(e, n) + [Op(Instr.Throw)]
    case Return(e) => EmitExpr(e, n) + [Op(Instr.Return)]
  }

  function EmitInit(i: Option<Assign>, n: nat): Snippet {
    if i.Some? then EmitAssign(i.value, n, 0) else []
  }

  // The code of construct number n around the code of its parts.

  function IfCode(n: nat, c: Snippet, t: Snippet, e: Snippet): Snippet {
    c + [Op(JumpIfFalse(L(IfElse, n))), Op(PopTop)]
    + t + [Op(JumpAbsolute(L(IfEnd, n))), Lab(L(IfElse, n)), Op(PopTop)]
    + e + [Op(JumpAbsolute(L(IfEnd, n))), Lab(L(IfEnd, n))]
  }

  function WhileCode(n: nat, c: Snippet, b: Snippet, e: Option<Snippet>): Snippet {
    [Op(if e.Some? then SetupElseLoop(L(WhileEnd, n), L(WhileElse, n)) else SetupLoop(L(WhileEnd, n))),
     Lab(L(WhileTop, n))]
    + c
    + (if e.Some? then [Op(JumpIfFirstFalse(L(WhilePreElse, n)))] else [])
    + ([Op(JumpIfFalse(L(WhilePreEnd, n))), Op(PopTop)] + b + [Op(JumpAbsolute(L(WhileTop, n)))])
    + WhileElseCode(n, e)
    + [Lab(L(WhilePreEnd, n)), Op(PopTop), Lab(L(WhileEnd, n)), Op(PopBlock)]
  }

  function WhileElseCode(n: nat, e: Option<Snippet>): Snippet {
    if e.None? then [] else
    [Lab(L(WhilePreElse, n)), Op(PopTop), Lab(L(WhileElse, n))] + e.value + [Op(JumpAbsolute(L(WhileEnd, n)))]
  }

  function DoCode(n: nat, b: Snippet, c: Snippet): Snippet {
    [Op(SetupLoop(L(DoEnd, n))), Lab(L(DoTop, n))]
    + b
    + [Lab(L(DoCmp, n))]
    + c
    + [Op(JumpIfFalse(L(DoPreEnd, n))), Op(PopTop), Op(JumpAbsolute(L(DoTop, n))),
       Lab(L(DoPreEnd, n)), Op(PopTop), Lab(L(DoEnd, n)), Op(PopBlock)]
  }

  function ForCode(n: nat, i: Snippet, c: Snippet, b: Snippet, st: Snippet): Snippet {
    ([Lab(L(ForInit, n))] + i + [Op(SetupLoop(L(ForEnd, n))), Lab(L(ForTest, n))])
    + c
    + [Op(JumpIfFalse(L(ForPreEnd, n))), Op(PopTop)]
    + b
    + [Lab(L(ForIncdec, n))]
    + st
    + [Op(JumpAbsolute(L(ForTest, n))), Lab(L(ForPreEnd, n)), Op(PopTop), Lab(L(ForEnd, n)), Op(PopBlock)]
  }

  function SwitchCode(n: nat, e: Snippet, cases: Snippet, count: nat, defaults: nat): Snippet {
    e
    + [Lab(L(SwitchBegin, n)), Op(SetupElseLoop(L(SwitchEnd, n), L(SwitchDefault, n)))]
    + cases
    + [Lab(Label(CasePre, n, count)), Op(PopTop), Op(JumpAbsolute(L(SwitchDefault, n))),
       Lab(Label(CaseTest, n, count)), Lab(Label(CaseBody, n, count))]
    + (if defaults == 0 then [Lab(L(SwitchDefault, n))] else [])
    + [Lab(L(SwitchEnd, n)), Op(PopBlock), Op(PopTop)]
  }

  function TryCode(n: nat, b: Snippet, catches: Snippet, f: Snippet): Snippet {
    [Op(SetupExcept(L(TryCatch, n), L(TryFinally, n), L(TryEndFinally, n)))]
    + b
    + [Op(JumpForward(L(TryFinally, n))), Lab(L(TryCatch, n))]
    + catches
    + [Op(PopTop), Op(JumpForward(L(TryFinally, n))), Lab(L(TryFinally, n))]
    + f
    + [Lab(L(TryEndFinally, n)), Op(EndFinally)]
  }

  /** One case.  Its `pre` label is where a failed test of an earlier case arrives, with the truth
      value still on the stack. */
  function EmitCase(c: Case, i: nat, own: nat, n: nat): Snippet
    decreases c, 4
  {
    assert c.body < c;
    CaseCode(own, i, if c.test.Some? then Some(EmitExpr(c.test.value, n)) else None,
             EmitStmt(c.body, n + (if c.test.Some? then ExprCount(c.test.value) else 0), None))
  }

  function CaseCode(n: nat, i: nat, test: Option<Snippet>, b: Snippet): Snippet {
    CaseEntry(n, i, test.Some?)
    + (if test.Some? then
         [Op(DupTop)] + test.value + [Op(Compare(Eq)), Op(JumpIfFalse(Label(CasePre, n, i + 1))), Op(PopTop)]
       else [Lab(L(SwitchDefault, n))])
    + [Lab(Label(CaseBody, n, i))]
    + b
    + [Op(JumpAbsolute(Label(CaseBody, n, i + 1)))]
  }

  /** The lines between the entry of a case and its body. */
  function CaseTestCode(n: nat, i: nat, test: Option<Snippet>): Snippet {
    if test.Some? then
      [Op(DupTop)] + test.value + [Op(Compare(Eq)), Op(JumpIfFalse(Label(CasePre, n, i + 1))), Op(PopTop)]
    else [Lab(L(SwitchDefault, n))]
  }

  /** A default is skipped on the way through the tests; if it comes first there is no truth value yet,
      so one more copy of the subject stands in for it. */
  function CaseEntry(n: nat, i: nat, tested: bool): Snippet {
    if tested then
      [Lab(Label(CasePre, n, i))] + (if i > 0 then [Op(PopTop)] else []) + [Lab(Label(CaseTest, n, i))]
    else
      [Lab(Label(CasePre, n, i))] + (if i == 0 then [Op(DupTop)] else [])
      + [Op(JumpAbsolute(Label(CasePre, n, i + 1))), Lab(Label(CaseTest, n, i))]
  }

  function EmitCatches(catches: seq<Catch>, i: nat, own: nat, n: nat, cont: Option<Label>): Snippet
    decreases catches, 0
  {
    if catches == [] then [] else
    CatchCode(own, i, catches[0].classId, catches[0].id, EmitStmt(catches[0].body, n, cont))
    + EmitCatches(catches[1..], i + 1, own, n + StmtCount(catches[0].body), Kept(cont, Drift(catches[0].body)))
  }

  function CatchCode(n: nat, i: nat, classId: Id, id: Id, b: Snippet): Snippet {
    (if i != 0 then [Op(PopTop)] else [])
    + [Op(DupTop), Op(LoadId(classId)), Op(CompareEx), Op(JumpIfFalse(Label(TryNoMatch, n, i))), Op(PopTop),
       Op(StoreId(id)), Lab(Label(TryMatch, n, i))]
    + b
    + [Op(JumpForward(L(TryFinally, n))), Lab(Label(TryNoMatch, n, i))]
  }

  function EmitStmts(items: seq<Stmt>, n: nat, cont: Option<Label>): Snippet
    decreases items, 0
  {
    if items == [] then [] else
    EmitStmt(items[0], n, cont)
    + EmitStmts(items[1..], n + StmtCount(items[0]), Kept(cont, Drift(items[0])))
  }

  /** The cases from number i on, of the switch with number own. */
  function EmitCases(cases: seq<Case>, i: nat, own: nat, n: nat): Snippet
    decreases cases, 5
  {
    if cases == [] then [] else
    EmitCase(cases[0], i, own, n) + EmitCases(cases[1..], i + 1, own, n + CaseCount(cases[0]))
  }

  // ----- frames -----

  /** The lines of a frame.  `append` asks for a return at the end, in case the code gets there: the
      main frame returns 0, any other one `self`. */
  function FrameCode(s: Stmt, main: bool, append: bool): Snippet {
    EmitStmt(s, 0, None) + FrameTail(main, append)
  }

  function FrameTail(main: bool, append: bool): Snippet {
    if !append then []
    else [Op(if main then LoadConst(Num(0)) else LoadId("self")), Op(Instr.Return)]
  }
}
