/** The code of an assignment chain stores what the reference semantics stores, in the same order. */
module SimulateAssign {
  import opened Values
  import opened Syntax
  import opened Semantics
  import opened Assembly
  import opened Emit
  import opened Machine
  import opened Assembler
  import opened Limits
  import opened Trace
  import opened Steps
  import opened SimulateExpr

  /** Entered in c, an assignment or a store has ended with s before line end; `keep` is what it leaves
      on the stack. */
  ghost predicate StoredAs(x: Ctx, c: Vm, s: Stored, keep: seq<Value>, end: nat, d: Vm) {
    match s.r
    case Ok(_) => d == c.(ip := Off(x.p, end), stack := c.stack + keep, vars := s.vars)
    case Raise(y) => Raising(d, c, s.vars, y)
    case Fatal => d.status.Fatal?
  }

  lemma PaddedLast(base: seq<Value>, items: seq<Value>, n: nat)
    ensures base + Padded(items, n + 1) == base + Padded(items, n) + [ItemOrNull(items, n)]
  {
  }

  /** Storing v, which lies on the stack above base. */
  lemma {:induction false} SimStore(x: Ctx, t: Expr, k: nat, n: nat, c: Vm, base: seq<Value>, v: Value)
    returns (m: nat, d: Vm)
    requires IsTarget(t) && Here(x, n, c, k) && HasCode(x.p, k, EmitStore(t)) && c.stack == base + [v]
    requires Floor(c) <= |base| && |base| + StoreNeed(t) <= x.size
    ensures m >= n && Reached(x, m, d)
    ensures StoredAs(x, c.(stack := base), Store(x.w, t, v, c.vars), [], k + |EmitStore(t)|, d)
    decreases t, 1
  {
    hide Sound, Reached, HasCode, ExecInstr, Off, Addr, EmitStoreItems, StoreItems, StoreItemsNeed;
    assert base + [] == base && c.stack[..|c.stack| - 1] == base;
    if t.Name? {
      d := DoStore(x, n, c, k, EmitStore(t), 0, t.id);
      m := n + 1;
    } else {
      var head, rest := [Op(UnpackTuple(|t.elems|))], EmitStoreItems(t.elems);
      Split(x.p, k, head, rest);
      StoreItemsNeedAtLeast(t.elems);
      d := DoUnpack(x, n, c, k, head, 0, |t.elems|);
      m := n + 1;
      if v.Tuple? {
        assert d.stack == base + Padded(v.items, |t.elems|);
        m, d := SimStoreItems(x, t.elems, v.items, k + 1, m, d, base);
      }
    }
  }

  lemma StoreItemsNeedAtLeast(ts: seq<Expr>)
    ensures StoreItemsNeed(ts) >= |ts|
  {
  }

  lemma {:induction false} SimStoreItems(x: Ctx, ts: seq<Expr>, items: seq<Value>, k: nat, n: nat, c: Vm, base: seq<Value>)
    returns (m: nat, d: Vm)
    requires forall t | t in ts :: IsTarget(t)
    requires Here(x, n, c, k) && HasCode(x.p, k, EmitStoreItems(ts)) && c.stack == base + Padded(items, |ts|)
    requires Floor(c) <= |base| && |base| + StoreItemsNeed(ts) <= x.size
    ensures m >= n && Reached(x, m, d)
    ensures StoredAs(x, c.(stack := base), StoreItems(x.w, ts, items, c.vars), [], k + |EmitStoreItems(ts)|, d)
    decreases ts, 0
  {
    hide Sound, Reached, HasCode, Off, EmitStore, Store, StoreNeed;
    m, d := n, c;
    assert base + [] == base;
    if ts != [] {
      var j := |ts| - 1;
      var last := EmitStore(ts[j]);
      Split(x.p, k, last, EmitStoreItems(ts[..j]));
      PaddedLast(base, items, j);
      var below := base + Padded(items, j);
      m, d := SimStore(x, ts[j], k, n, c, below, ItemOrNull(items, j));
      if Store(x.w, ts[j], ItemOrNull(items, j), c.vars).r.Ok? {
        assert below + [] == below;
        m, d := SimStoreItems(x, ts[..j], items, k + |last|, m, d, base);
      }
    }
  }

  lemma {:induction false} SimAssign(x: Ctx, a: Assign, multi: nat, k: nat, l: nat, n: nat, c: Vm)
    returns (m: nat, d: Vm)
    requires IsChain(a) && Here(x, n, c, k) && HasCode(x.p, k, EmitAssign(a, l, multi))
    requires |c.stack| + AssignNeed(a, multi > 0) <= x.size
    ensures m >= n && Reached(x, m, d)
    ensures var s := ExecAssign(x.w, a, c.vars);
            StoredAs(x, c, s, if multi > 0 && s.r.Ok? then [s.r.v] else [], k + |EmitAssign(a, l, multi)|, d)
    decreases a, 1
  {
    hide Sound, Reached, HasCode, Off, EmitExpr, Eval, ExprNeed, EmitRhs, ExecRhs, EmitAssigned, Assigned, EmitStore;
    NestedAt(x, n, c);
    var l1 := l + (if a.op.Some? then ExprCount(a.target) else 0);
    var co, cr, ca := EmitOld(a, l), EmitRhs(a.rhs, l1, multi), EmitAssigned(a, multi > 0);
    assert Pending(a.rhs, multi) == multi by { PendingSame(a.rhs, multi); }
    Split3(x.p, k, co, cr, ca);
    m, d := n, c;
    var former, held := Null, [];
    if a.op.Some? {
      m, d := SimExpr(x, a.target, k, l, n, c);
      var r := Eval(x.w, a.target, c.vars);
      if !r.Ok? { return; }
      former, held := r.v, [r.v];
    }
    assert |co| == 0 || a.op.Some?;
    assert d.stack == c.stack + held;
    m, d := SimRhs(x, a.rhs, multi, k + |co|, l1, m, d);
    var rhs := ExecRhs(x.w, a.rhs, c.vars);
    if rhs.r.Ok? {
      assert c.stack + held + [rhs.r.v] == c.stack + (held + [rhs.r.v]);
      m, d := SimAssigned(x, a, multi > 0, k + |co| + |cr|, m, d, c.stack, former, rhs.r.v);
    }
  }

  lemma {:induction false} SimRhs(x: Ctx, rhs: Rhs, multi: nat, k: nat, l: nat, n: nat, c: Vm)
    returns (m: nat, d: Vm)
    requires rhs.Chain? ==> IsChain(rhs.a)
    requires Here(x, n, c, k) && HasCode(x.p, k, EmitRhs(rhs, l, multi))
    requires |c.stack| + RhsNeed(rhs, multi > 0) <= x.size
    ensures m >= n && Reached(x, m, d)
    ensures var s := ExecRhs(x.w, rhs, c.vars);
            StoredAs(x, c, s, if s.r.Ok? then [s.r.v] else [], k + |EmitRhs(rhs, l, multi)|, d)
    decreases rhs, 0
  {
    hide Sound, Reached, HasCode, Off, EmitExpr, Eval, ExprNeed, EmitAssign, ExecAssign, AssignNeed;
    match rhs
    case Plain(e) => m, d := SimExpr(x, e, k, l, n, c);
    case Chain(a) => m, d := SimAssign(x, a, multi + 1, k, l, n, c);
  }

  /** The end of an assignment: the old value, if it is compound, and the right side lie above base. */
  lemma SimAssigned(x: Ctx, a: Assign, keep: bool, k: nat, n: nat, c: Vm, base: seq<Value>, former: Value, v: Value)
    returns (m: nat, d: Vm)
    requires IsTarget(a.target) && Here(x, n, c, k) && HasCode(x.p, k, EmitAssigned(a, keep))
    requires c.stack == base + ((if a.op.Some? then [former] else []) + [v])
    requires Floor(c) <= |base| && |base| + (if keep then 1 else 0) + StoreNeed(a.target) <= x.size
    ensures m >= n && Reached(x, m, d)
    ensures var s := Assigned(x.w, a, former, v, c.vars);
            StoredAs(x, c.(stack := base), s, if keep && s.r.Ok? then [s.r.v] else [], k + |EmitAssigned(a, keep)|, d)
  {
    hide Sound, Reached, HasCode, Off, ExecInstr, EmitStore, Store, StoreNeed, IsTarget;
    var ops := if a.op.Some? then [Op(Operate(a.op.value))] else [];
    var dup := if keep then [Op(DupTop)] else [];
    Split3(x.p, k, ops, dup, EmitStore(a.target));
    m, d := n, c;
    var r := v;
    if a.op.Some? {
      assert c.stack[..|c.stack| - 2] == base;
      d := DoTwo(x, n, c, k, ops, 0, Operate(a.op.value));
      m := n + 1;
      var t := x.w.operate(a.op.value, former, v);
      if !t.Ok? { return; }
      r := t.v;
    }
    assert d.stack == base + [r];
    if keep {
      d := DoDup(x, m, d, k + |ops|, dup, 0);
      m := m + 1;
    }
    StoreValue(x.w, a.target, r, c.vars);
    var below := if keep then base + [r] else base;
    m, d := SimStore(x, a.target, k + |ops| + |dup|, m, d, below, r);
    assert below == base + (if keep then [r] else []);
    assert below + [] == below;
  }

  /** A store produces the value it stored. */
  lemma StoreValue(w: World, t: Expr, v: Value, vars: Vars)
    ensures var s := Store(w, t, v, vars); s.r.Ok? ==> s.r.v == v
  {
  }
}
