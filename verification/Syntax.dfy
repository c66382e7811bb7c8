/** The abstract syntax that the statement compiler walks. */
module Syntax {
  import opened Values

  datatype Expr =
    | Const(v: Value)
    | NullLit
    | Name(id: Id)
    | Operator(op: BinOp, l: Expr, r: Expr)
    | Comparison(cmp: CmpOp, l: Expr, r: Expr)
    | And(l: Expr, r: Expr)
    | Or(l: Expr, r: Expr)
    | Coalesce(l: Expr, r: Expr)
    | Ternary(c: Expr, t: Expr, e: Expr)
    | TupleLit(elems: seq<Expr>)

  /** `target op= rhs`, where the right side may itself be an assignment (a = b += c = 3). */
  datatype Assign = Assign(op: Option<BinOp>, target: Expr, rhs: Rhs)
  datatype Rhs = Plain(e: Expr) | Chain(a: Assign)

  datatype Stmt =
    | Nop
    | Let(a: Assign)
    | Group(items: seq<Stmt>)
    | If(cond: Expr, thn: Stmt, els: Option<Stmt>)
    | While(cond: Expr, body: Stmt, els: Option<Stmt>)
    | Do(body: Stmt, cond: Expr)
    | For(init: Option<Assign>, cond: Expr, step: Stmt, body: Stmt)
    | Break
    | BreakElse
    | Continue
    | Switch(subject: Expr, cases: seq<Case>)
    | Try(body: Stmt, catches: seq<Catch>, fin: Stmt)
    | Throw(e: Expr)
    | Return(e: Expr)

  /** A case without a test is the default. */
  datatype Case = Case(test: Option<Expr>, body: Stmt)
  datatype Catch = Catch(classId: Id, id: Id, body: Stmt)

  /** What may stand left of an assignment operator here: names and arbitrarily nested tuples of them. */
  predicate IsTarget(e: Expr) {
    e.Name? || (e.TupleLit? && forall t | t in e.elems :: IsTarget(t))
  }

  predicate IsChain(a: Assign) {
    IsTarget(a.target) && (a.rhs.Chain? ==> IsChain(a.rhs.a))
  }

  /** How many of the compiler's loop blocks a statement leaves open: one for every `switch` in it. */
  function Drift(s: Stmt): nat
    decreases s, 1
  {
    match s
    case Group(items) => DriftItems(items)
    case If(_, t, e) => Drift(t) + (if e.Some? then Drift(e.value) else 0)
    case While(_, b, e) => Drift(b) + (if e.Some? then Drift(e.value) else 0)
    case Do(b, _) => Drift(b)
    case For(_, _, st, b) => Drift(b) + Drift(st)
    case Switch(_, cases) => 1 + DriftCases(cases)
    case Try(b, catches, f) => Drift(b) + DriftCatches(catches) + Drift(f)
    case _ => 0
  }

  function DriftItems(items: seq<Stmt>): nat
    decreases items, 0
  {
    if items == [] then 0 else Drift(items[0]) + DriftItems(items[1..])
  }

  function DriftCases(cases: seq<Case>): nat
    decreases cases, 0
  {
    if cases == [] then 0 else
    assert cases[0].body < cases[0];
    Drift(cases[0].body) + DriftCases(cases[1..])
  }

  function DriftCatches(catches: seq<Catch>): nat
    decreases catches, 0
  {
    if catches == [] then 0 else Drift(catches[0].body) + DriftCatches(catches[1..])
  }

  /** The statements whose every `continue` names the loop it stands in.  `cont` says whether a
      `continue` may stand here: not outside a loop, not inside a `switch`, and not after a `switch`
      that the same loop contains, because the compiler never closes the block a `switch` opens. */
  predicate WellFormed(s: Stmt, cont: bool)
    decreases s, 1
  {
    match s
    case Let(a) => IsChain(a)
    case Group(items) => WellFormedItems(items, cont)
    case If(_, t, e) =>
      && WellFormed(t, cont)
      && (e.Some? ==> WellFormed(e.value, cont && Drift(t) == 0))
    case While(_, b, e) =>
      && WellFormed(b, true)
      && (e.Some? ==> WellFormed(e.value, Drift(b) == 0))
    case Do(b, _) => WellFormed(b, true)
    case For(init, _, st, b) =>
      && (init.Some? ==> IsChain(init.value))
      && WellFormed(b, true)
      && WellFormed(st, Drift(b) == 0)
    case Continue => cont
    case Switch(_, cases) => cases != [] && Defaults(cases) <= 1 && WellFormedCases(cases)
    case Try(b, catches, f) =>
      && WellFormed(b, cont)
      && WellFormedCatches(catches, cont && Drift(b) == 0)
      && WellFormed(f, cont && Drift(b) + DriftCatches(catches) == 0)
    case _ => true
  }

  predicate WellFormedItems(items: seq<Stmt>, cont: bool)
    decreases items, 0
  {
    items != [] ==>
      && WellFormed(items[0], cont)
      && WellFormedItems(items[1..], cont && Drift(items[0]) == 0)
  }

  predicate WellFormedCases(cases: seq<Case>)
    decreases cases, 0
  {
    cases != [] ==>
      assert cases[0].body < cases[0];
      WellFormed(cases[0].body, false) && WellFormedCases(cases[1..])
  }

  predicate WellFormedCatches(catches: seq<Catch>, cont: bool)
    decreases catches, 0
  {
    catches != [] ==>
      && WellFormed(catches[0].body, cont)
      && WellFormedCatches(catches[1..], cont && Drift(catches[0].body) == 0)
  }

  function Defaults(cases: seq<Case>): nat {
    if cases == [] then 0 else (if cases[0].test.None? then 1 else 0) + Defaults(cases[1..])
  }

  /** Every `breakelse` has somewhere to go.  Its innermost loop is a while loop with an else part or a
      `switch`, or there is a try in between, where no loop jump gets through; outside of all loops it leaves
      the frame.  `here` says whether a `breakelse` may stand here. */
  predicate Anchored(s: Stmt, here: bool)
    decreases s, 1
  {
    match s
    case BreakElse => here
    case Group(items) => AnchoredItems(items, here)
    case If(_, t, e) => Anchored(t, here) && (e.Some? ==> Anchored(e.value, here))
    case While(_, b, e) => Anchored(b, e.Some?) && (e.Some? ==> Anchored(e.value, true))
    case Do(b, _) => Anchored(b, false)
    case For(_, _, st, b) => Anchored(b, false) && Anchored(st, false)
    case Switch(_, cases) => AnchoredCases(cases)
    case Try(b, catches, f) => Anchored(b, true) && AnchoredCatches(catches) && Anchored(f, true)
    case _ => true
  }

  predicate AnchoredItems(items: seq<Stmt>, here: bool)
    decreases items, 0
  {
    items != [] ==> Anchored(items[0], here) && AnchoredItems(items[1..], here)
  }

  predicate AnchoredCases(cases: seq<Case>)
    decreases cases, 0
  {
    cases != [] ==>
      assert cases[0].body < cases[0];
      Anchored(cases[0].body, true) && AnchoredCases(cases[1..])
  }

  predicate AnchoredCatches(catches: seq<Catch>)
    decreases catches, 0
  {
    catches != [] ==> Anchored(catches[0].body, true) && AnchoredCatches(catches[1..])
  }
}
