/** How much of the operand stack and of the block stack a construct can take.  The assembler reserves
    a fixed stack of 42 values; these are the sizes it would have to compute. */
module Limits {
  import opened Values
  import opened Syntax

  function ExprNeed(e: Expr): (need: nat)
    ensures need >= 1
    decreases e, 1
  {
    match e
    case Operator(_, l, r) => Max(ExprNeed(l), 1 + ExprNeed(r))
    case Comparison(_, l, r) => Max(ExprNeed(r), 1 + ExprNeed(l))
    case And(l, r) => Max(ExprNeed(l), ExprNeed(r))
    case Or(l, r) => Max(ExprNeed(l), ExprNeed(r))
    case Coalesce(l, r) => Max(2, Max(ExprNeed(l), ExprNeed(r)))
    case Ternary(c, t, f) => Max(ExprNeed(c), Max(ExprNeed(t), ExprNeed(f)))
    case TupleLit(elems) => Max(1, ItemsNeed(elems))
    case _ => 1
  }

  /** The elements of a tuple stay on the stack while later ones are computed. */
  function ItemsNeed(elems: seq<Expr>): nat
    decreases elems, 0
  {
    if elems == [] then 0 else Max(ExprNeed(elems[0]), 1 + ItemsNeed(elems[1..]))
  }

  /** Counted with the value that is stored. */
  function StoreNeed(t: Expr): (need: nat)
    ensures need >= 1
    decreases t, 1
  {
    if t.TupleLit? then Max(1, StoreItemsNeed(t.elems)) else 1
  }

  function StoreItemsNeed(ts: seq<Expr>): nat
    decreases ts, 0
  {
    if ts == [] then 0 else Max(|ts| - 1 + StoreNeed(ts[|ts| - 1]), StoreItemsNeed(ts[..|ts| - 1]))
  }

  /** `keep` says that the value is duplicated, for the assignment further out in the chain. */
  function AssignNeed(a: Assign, keep: bool): nat
    decreases a, 1
  {
    Max(OldNeed(a) + RhsNeed(a.rhs, keep), (if keep then 1 else 0) + StoreNeed(a.target))
  }

  function OldNeed(a: Assign): nat {
    if a.op.Some? then ExprNeed(a.target) else 0
  }

  function RhsNeed(rhs: Rhs, keep: bool): (need: nat)
    ensures need >= 1
    decreases rhs, 0
  {
    match rhs case Plain(e) => ExprNeed(e) case Chain(b) => AssignNeed(b, true)
  }

  /** A try holds a marker, an exception or a pending return with its marker, and one class to compare. */
  function StackNeed(s: Stmt): nat
    decreases s, 1
  {
    match s
    case Let(a) => AssignNeed(a, false)
    case Group(items) => ItemsStackNeed(items)
    case If(c, t, e) => Max(ExprNeed(c), Max(StackNeed(t), if e.Some? then StackNeed(e.value) else 0))
    case While(c, b, e) => Max(ExprNeed(c), Max(StackNeed(b), if e.Some? then StackNeed(e.value) else 0))
    case Do(b, c) => Max(StackNeed(b), ExprNeed(c))
    case For(i, c, st, b) =>
      Max(Max(if i.Some? then AssignNeed(i.value, false) else 0, ExprNeed(c)), Max(StackNeed(st), StackNeed(b)))
    case Switch(e, cases) => Max(3, Max(ExprNeed(e), CasesStackNeed(cases)))
    case Try(b, catches, f) =>
      Max(5, Max(1 + StackNeed(b), Max(CatchesStackNeed(catches), 3 + StackNeed(f))))
    case Throw(e) => ExprNeed(e)
    case Return(e) => ExprNeed(e)
    case _ => 0
  }

  function ItemsStackNeed(items: seq<Stmt>): nat
    decreases items, 0
  {
    if items == [] then 0 else Max(StackNeed(items[0]), ItemsStackNeed(items[1..]))
  }

  function CasesStackNeed(cases: seq<Case>): nat
    decreases cases, 0
  {
    if cases == [] then 0 else
    assert cases[0].body < cases[0];
    Max(Max(if cases[0].test.Some? then 2 + ExprNeed(cases[0].test.value) else 0, 1 + StackNeed(cases[0].body)),
        CasesStackNeed(cases[1..]))
  }

  function CatchesStackNeed(catches: seq<Catch>): nat
    decreases catches, 0
  {
    if catches == [] then 0 else Max(1 + StackNeed(catches[0].body), CatchesStackNeed(catches[1..]))
  }

  function BlockNeed(s: Stmt): nat
    decreases s, 1
  {
    match s
    case Group(items) => ItemsBlockNeed(items)
    case If(_, t, e) => Max(BlockNeed(t), if e.Some? then BlockNeed(e.value) else 0)
    case While(_, b, e) => 1 + Max(BlockNeed(b), if e.Some? then BlockNeed(e.value) else 0)
    case Do(b, _) => 1 + BlockNeed(b)
    case For(_, _, st, b) => 1 + Max(BlockNeed(st), BlockNeed(b))
    case Switch(_, cases) => 1 + CasesBlockNeed(cases)
    case Try(b, catches, f) => 1 + Max(BlockNeed(b), Max(CatchesBlockNeed(catches), BlockNeed(f)))
    case _ => 0
  }

  function ItemsBlockNeed(items: seq<Stmt>): nat
    decreases items, 0
  {
    if items == [] then 0 else Max(BlockNeed(items[0]), ItemsBlockNeed(items[1..]))
  }

  function CasesBlockNeed(cases: seq<Case>): nat
    decreases cases, 0
  {
    if cases == [] then 0 else
    assert cases[0].body < cases[0];
    Max(BlockNeed(cases[0].body), CasesBlockNeed(cases[1..]))
  }

  function CatchesBlockNeed(catches: seq<Catch>): nat
    decreases catches, 0
  {
    if catches == [] then 0 else Max(BlockNeed(catches[0].body), CatchesBlockNeed(catches[1..]))
  }
}
