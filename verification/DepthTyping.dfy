/** The code of every well-formed program has one place for each of its lines. */
module DepthTyping {
  import opened Values
  import opened Syntax
  import opened Assembly
  import opened Emit
  import opened Machine
  import opened Depths

  /** The constructs numbered n + 1 and up are these. */
  predicate HasEnv(env: Env, n: nat, part: Env) {
    n + |part| <= |env| && env[n..n + |part|] == part
  }

  lemma EnvSplit(env: Env, n: nat, a: Env, b: Env)
    requires HasEnv(env, n, a + b)
    ensures HasEnv(env, n, a) && HasEnv(env, n + |a|, b)
  {
    assert env[n..n + |a|] == (a + b)[..|a|];
    assert env[n + |a|..n + |a| + |b|] == (a + b)[|a|..];
  }

  lemma EnvSplit3(env: Env, n: nat, a: Env, b: Env, c: Env)
    requires HasEnv(env, n, a + b + c)
    ensures HasEnv(env, n, a) && HasEnv(env, n + |a|, b) && HasEnv(env, n + |a| + |b|, c)
  {
    hide HasEnv;
    EnvSplit(env, n, a + b, c);
    EnvSplit(env, n, a, b);
  }

  lemma EnvSplit4(env: Env, n: nat, a: Env, b: Env, c: Env, d: Env)
    requires HasEnv(env, n, a + b + c + d)
    ensures HasEnv(env, n, a) && HasEnv(env, n + |a|, b) && HasEnv(env, n + |a| + |b|, c) && HasEnv(env, n + |a| + |b| + |c|, d)
  {
    hide HasEnv;
    EnvSplit(env, n, a + b + c, d);
    EnvSplit3(env, n, a, b, c);
  }

  lemma EnvSplit5(env: Env, n: nat, a: Env, b: Env, c: Env, d: Env, e: Env)
    requires HasEnv(env, n, a + b + c + d + e)
    ensures HasEnv(env, n, a) && HasEnv(env, n + |a|, b) && HasEnv(env, n + |a| + |b|, c) && HasEnv(env, n + |a| + |b| + |c|, d)
    ensures HasEnv(env, n + |a| + |b| + |c| + |d|, e)
  {
    hide HasEnv;
    EnvSplit(env, n, a + b + c + d, e);
    EnvSplit4(env, n, a, b, c, d);
  }

  lemma EnvEntry(env: Env, n: nat, e: Entry)
    requires HasEnv(env, n, [e])
    ensures n < |env| && env[n] == e
  {
    assert env[n..n + 1][0] == e;
  }

  /** Code that leaves these many values may stand here. */
  predicate Fit(env: Env, a: Place) {
    Sane(env, a.regions) && BaseOf(a) <= a.depth
  }

  // ----- expressions -----

  lemma {:induction false} ExprTyped(env: Env, done: set<Label>, e: Expr, n: nat, a: Place)
    requires Fit(env, a) && HasEnv(env, n, EnvExpr(e, a))
    ensures Typed(env, done, EmitExpr(e, n), Some(a), Some(Up(a, 1)))
    decreases e, 2
  {
    hide Typed, HasEnv, Sane, EnvExpr, EmitExpr;
    if e.Operator? || e.Comparison? {
      BinaryTyped(env, done, e, n, a);
    } else if e.And? || e.Or? {
      LogicTyped(env, done, e, n, a);
    } else if e.Coalesce? {
      DefaultTyped(env, done, e, n, a);
    } else if e.Ternary? {
      ChoiceTyped(env, done, e, n, a);
    } else if e.TupleLit? {
      TupleTyped(env, done, e, n, a);
    } else {
      LeafTyped(env, done, e, n, a);
    }
  }

  lemma LeafTyped(env: Env, done: set<Label>, e: Expr, n: nat, a: Place)
    requires (e.Const? || e.NullLit? || e.Name?) && Fit(env, a)
    ensures Typed(env, done, EmitExpr(e, n), Some(a), Some(Up(a, 1)))
  {
    hide Typed, Sane;
    One(env, done, EmitExpr(e, n)[0], Some(a));
  }

  lemma {:induction false} BinaryTyped(env: Env, done: set<Label>, e: Expr, n: nat, a: Place)
    requires (e.Operator? || e.Comparison?) && Fit(env, a) && HasEnv(env, n, EnvExpr(e, a))
    ensures Typed(env, done, EmitExpr(e, n), Some(a), Some(Up(a, 1)))
    decreases e, 1
  {
    hide Typed, HasEnv, Sane, EmitExpr, EnvExpr, ExprCount;
    TwoIs(e, n);
    TwoEnv(e, a);
    var l, r := FirstOf(e), SecondOf(e);
    EnvSplit(env, n, EnvExpr(l, a), EnvExpr(r, Up(a, 1)));
    ExprTyped(env, done, l, n, a);
    ExprTyped(env, done, r, n + ExprCount(l), Up(a, 1));
    var i := Op(if e.Operator? then Operate(e.op) else Compare(e.cmp));
    One(env, done, i, Some(Up(a, 2)));
    assert Up(Up(a, 1), 1) == Up(a, 2) && Down(Up(a, 2), 1) == Up(a, 1);
    Then3(env, done, EmitExpr(l, n), EmitExpr(r, n + ExprCount(l)), [i], Some(a), Some(Up(a, 1)), Some(Up(a, 2)), Some(Up(a, 1)));
  }

  lemma {:induction false} LogicTyped(env: Env, done: set<Label>, e: Expr, n: nat, a: Place)
    requires (e.And? || e.Or?) && Fit(env, a) && HasEnv(env, n, EnvExpr(e, a))
    ensures Typed(env, done, EmitExpr(e, n), Some(a), Some(Up(a, 1)))
    decreases e, 1
  {
    hide Typed, HasEnv, Sane, EmitExpr, EnvExpr, ExprCount;
    BoolIs(e, n);
    BoolEnv(e, a);
    var end, n1 := L(if e.And? then AndEnd else OrEnd, n + 1), n + 1 + ExprCount(e.l);
    EnvSplit3(env, n, [Entry(a, false)], EnvExpr(e.l, a), EnvExpr(e.r, a));
    EnvEntry(env, n, Entry(a, false));
    ExprTyped(env, done, e.l, n + 1, a);
    ExprTyped(env, done, e.r, n1, a);
    var i := Op(if e.And? then JumpIfFalse(end) else JumpIfTrue(end));
    var t, u := Some(a), Some(Up(a, 1));
    assert Down(Up(a, 1), 1) == a;
    Two(env, done, i, Op(PopTop), u);
    One(env, done, Lab(end), u);
    Then3(env, done, EmitExpr(e.l, n + 1), [i, Op(PopTop)], EmitExpr(e.r, n1), t, u, t, u);
    Then(env, done, EmitExpr(e.l, n + 1) + [i, Op(PopTop)] + EmitExpr(e.r, n1), [Lab(end)], t, u, u);
  }

  lemma {:induction false} DefaultTyped(env: Env, done: set<Label>, e: Expr, n: nat, a: Place)
    requires e.Coalesce? && Fit(env, a) && HasEnv(env, n, EnvExpr(e, a))
    ensures Typed(env, done, EmitExpr(e, n), Some(a), Some(Up(a, 1)))
    decreases e, 1
  {
    hide Typed, HasEnv, Sane, EmitExpr, EnvExpr, ExprCount, CoalesceCode;
    CoalesceIs(e, n);
    BoolEnv(e, a);
    var n1 := n + 1 + ExprCount(e.l);
    EnvSplit3(env, n, [Entry(a, false)], EnvExpr(e.l, a), EnvExpr(e.r, a));
    EnvEntry(env, n, Entry(a, false));
    ExprTyped(env, done, e.l, n + 1, a);
    ExprTyped(env, done, e.r, n1, a);
    CoalesceTyped(env, done, n + 1, EmitExpr(e.l, n + 1), EmitExpr(e.r, n1), a);
  }

  lemma CoalesceTyped(env: Env, done: set<Label>, n: nat, ca: Snippet, cb: Snippet, a: Place)
    requires Fit(env, a) && PlaceAt(env, L(CoalesceDefault, n)) == Up(a, 2) && PlaceAt(env, L(CoalesceEnd, n)) == Up(a, 1)
    requires Typed(env, done, ca, Some(a), Some(Up(a, 1))) && Typed(env, done, cb, Some(a), Some(Up(a, 1)))
    ensures Typed(env, done, CoalesceCode(n, ca, cb), Some(a), Some(Up(a, 1)))
  {
    hide Typed, Sane, PlaceAt;
    var dl, el := L(CoalesceDefault, n), L(CoalesceEnd, n);
    var t, u, v := Some(a), Some(Up(a, 1)), Some(Up(a, 2));
    assert Up(Up(a, 1), 1) == Up(a, 2) && Down(Up(a, 2), 1) == Up(a, 1) && Down(Up(a, 1), 1) == a;
    Three(env, done, Lab(dl), Op(PopTop), Op(PopTop), None);
    Cons(env, done, Op(JumpAbsolute(el)), [Lab(dl), Op(PopTop), Op(PopTop)], u, t);
    Three(env, done, Op(DupTop), Op(JumpIfFalse(dl)), Op(PopTop), u);
    Then(env, done, [Op(DupTop), Op(JumpIfFalse(dl)), Op(PopTop)], [Op(JumpAbsolute(el))] + [Lab(dl), Op(PopTop), Op(PopTop)], u, u, t);
    assert [Op(DupTop), Op(JumpIfFalse(dl)), Op(PopTop)] + ([Op(JumpAbsolute(el))] + [Lab(dl), Op(PopTop), Op(PopTop)])
        == [Op(DupTop), Op(JumpIfFalse(dl)), Op(PopTop), Op(JumpAbsolute(el)), Lab(dl), Op(PopTop), Op(PopTop)];
    Two(env, done, Op(JumpAbsolute(el)), Lab(el), u);
    Then3(env, done, ca, [Op(DupTop), Op(JumpIfFalse(dl)), Op(PopTop), Op(JumpAbsolute(el)), Lab(dl), Op(PopTop), Op(PopTop)], cb, t, u, t, u);
    Then(env, done, ca + [Op(DupTop), Op(JumpIfFalse(dl)), Op(PopTop), Op(JumpAbsolute(el)), Lab(dl), Op(PopTop), Op(PopTop)] + cb,
         [Op(JumpAbsolute(el)), Lab(el)], t, u, u);
  }

  lemma {:induction false} ChoiceTyped(env: Env, done: set<Label>, e: Expr, n: nat, a: Place)
    requires e.Ternary? && Fit(env, a) && HasEnv(env, n, EnvExpr(e, a))
    ensures Typed(env, done, EmitExpr(e, n), Some(a), Some(Up(a, 1)))
    decreases e, 1
  {
    hide Typed, HasEnv, Sane, BranchCode, EmitExpr, EnvExpr, ExprCount, TernaryCode, PlaceOf;
    TernaryIs(e, n);
    TernaryEnv(e, a);
    TernaryPlaces(env, n, a);
    var nt := n + 1 + ExprCount(e.c);
    var ne := nt + ExprCount(e.t);
    EnvSplit4(env, n, [Entry(a, false)], EnvExpr(e.c, a), EnvExpr(e.t, a), EnvExpr(e.e, a));
    ExprTyped(env, done, e.c, n + 1, a);
    ExprTyped(env, done, e.t, nt, a);
    ExprTyped(env, done, e.e, ne, a);
    BranchIs(n + 1, EmitExpr(e.c, n + 1), EmitExpr(e.t, nt), EmitExpr(e.e, ne));
    BranchTyped(env, done, L(TernaryElse, n + 1), L(TernaryEnd, n + 1), EmitExpr(e.c, n + 1), EmitExpr(e.t, nt), EmitExpr(e.e, ne), a, Up(a, 1));
  }

  /** The constructs of one expression around those of its parts. */
  lemma TwoEnv(e: Expr, a: Place)
    requires e.Operator? || e.Comparison?
    ensures EnvExpr(e, a) == EnvExpr(FirstOf(e), a) + EnvExpr(SecondOf(e), Up(a, 1))
  {
    hide EnvItems;
  }

  lemma BoolEnv(e: Expr, a: Place)
    requires e.And? || e.Or? || e.Coalesce?
    ensures EnvExpr(e, a) == [Entry(a, false)] + EnvExpr(e.l, a) + EnvExpr(e.r, a)
  {
    hide EnvItems;
  }

  lemma TernaryEnv(e: Expr, a: Place)
    requires e.Ternary?
    ensures EnvExpr(e, a) == [Entry(a, false)] + EnvExpr(e.c, a) + EnvExpr(e.t, a) + EnvExpr(e.e, a)
  {
    hide EnvItems;
  }

  lemma TernaryPlaces(env: Env, n: nat, a: Place)
    ensures HasEnv(env, n, [Entry(a, false)]) ==> PlaceAt(env, L(TernaryElse, n + 1)) == Up(a, 1) && PlaceAt(env, L(TernaryEnd, n + 1)) == Up(a, 1)
  {
    if HasEnv(env, n, [Entry(a, false)]) { EnvEntry(env, n, Entry(a, false)); }
  }

  /** The code that `if` and the conditional expression share. */
  function BranchCode(fl: Label, el: Label, cc: Snippet, ct: Snippet, ce: Snippet): Snippet {
    cc + [Op(JumpIfFalse(fl)), Op(PopTop)] + ct + [Op(JumpAbsolute(el)), Lab(fl), Op(PopTop)] + ce + [Op(JumpAbsolute(el)), Lab(el)]
  }

  lemma BranchIs(n: nat, cc: Snippet, ct: Snippet, ce: Snippet)
    ensures TernaryCode(n, cc, ct, ce) == BranchCode(L(TernaryElse, n), L(TernaryEnd, n), cc, ct, ce)
    ensures IfCode(n, cc, ct, ce) == BranchCode(L(IfElse, n), L(IfEnd, n), cc, ct, ce)
  {
  }

  lemma BranchTyped(env: Env, done: set<Label>, fl: Label, el: Label, cc: Snippet, ct: Snippet, ce: Snippet, a: Place, b: Place)
    requires Fit(env, a) && Fit(env, b) && PlaceAt(env, fl) == Up(a, 1) && PlaceAt(env, el) == b
    requires Typed(env, done, cc, Some(a), Some(Up(a, 1))) && Typed(env, done, ct, Some(a), Some(b)) && Typed(env, done, ce, Some(a), Some(b))
    ensures Typed(env, done, BranchCode(fl, el, cc, ct, ce), Some(a), Some(b))
  {
    hide Typed, Sane, PlaceAt;
    var s1, s2, s3 := [Op(JumpIfFalse(fl)), Op(PopTop)], [Op(JumpAbsolute(el)), Lab(fl), Op(PopTop)], [Op(JumpAbsolute(el)), Lab(el)];
    var t, u, v := Some(a), Some(Up(a, 1)), Some(b);
    assert Down(Up(a, 1), 1) == a;
    Two(env, done, s1[0], s1[1], u);
    Three(env, done, s2[0], s2[1], s2[2], v);
    Two(env, done, s3[0], s3[1], v);
    Then5(env, done, cc, s1, ct, s2, ce, t, u, t, v, t, v);
    Then(env, done, cc + s1 + ct + s2 + ce, s3, t, v, v);
  }

  lemma {:induction false} TupleTyped(env: Env, done: set<Label>, e: Expr, n: nat, a: Place)
    requires e.TupleLit? && Fit(env, a) && HasEnv(env, n, EnvExpr(e, a))
    ensures Typed(env, done, EmitExpr(e, n), Some(a), Some(Up(a, 1)))
    decreases e, 1
  {
    hide Typed, HasEnv, Sane, EmitItems, EnvItems;
    ItemsTyped(env, done, e.elems, n, a);
    var i := Op(PackTuple(|e.elems|));
    One(env, done, i, Some(Up(a, |e.elems|)));
    assert Up(Down(Up(a, |e.elems|), |e.elems|), 1) == Up(a, 1);
    Then(env, done, EmitItems(e.elems, n), [i], Some(a), Some(Up(a, |e.elems|)), Some(Up(a, 1)));
  }

  lemma {:induction false} ItemsTyped(env: Env, done: set<Label>, elems: seq<Expr>, n: nat, a: Place)
    requires Fit(env, a) && HasEnv(env, n, EnvItems(elems, a))
    ensures Typed(env, done, EmitItems(elems, n), Some(a), Some(Up(a, |elems|)))
    decreases elems, 0
  {
    hide Typed, HasEnv, Sane, EmitExpr, EnvExpr;
    Empty(env, done, Some(a));
    if elems != [] {
      var n1 := n + ExprCount(elems[0]);
      EnvSplit(env, n, EnvExpr(elems[0], a), EnvItems(elems[1..], Up(a, 1)));
      ExprTyped(env, done, elems[0], n, a);
      ItemsTyped(env, done, elems[1..], n1, Up(a, 1));
      assert Up(Up(a, 1), |elems| - 1) == Up(a, |elems|);
      Then(env, done, EmitExpr(elems[0], n), EmitItems(elems[1..], n1), Some(a), Some(Up(a, 1)), Some(Up(a, |elems|)));
    } else {
      assert Up(a, 0) == a;
    }
  }

  // ----- assignments -----

  lemma {:induction false} StoreTyped(env: Env, done: set<Label>, t: Expr, a: Place)
    requires IsTarget(t) && Fit(env, a)
    ensures Typed(env, done, EmitStore(t), Some(Up(a, 1)), Some(a))
    decreases t, 1
  {
    hide Typed, Sane, EmitStoreItems;
    assert Down(Up(a, 1), 1) == a;
    if t.Name? {
      One(env, done, Op(StoreId(t.id)), Some(Up(a, 1)));
    } else {
      var k := |t.elems|;
      StoreItemsTyped(env, done, t.elems, a);
      Cons(env, done, Op(UnpackTuple(k)), EmitStoreItems(t.elems), Some(Up(a, 1)), Some(a));
    }
  }

  lemma {:induction false} StoreItemsTyped(env: Env, done: set<Label>, ts: seq<Expr>, a: Place)
    requires (forall t | t in ts :: IsTarget(t)) && Fit(env, a)
    ensures Typed(env, done, EmitStoreItems(ts), Some(Up(a, |ts|)), Some(a))
    decreases ts, 0
  {
    hide Typed, Sane, EmitStore;
    assert Up(a, 0) == a;
    Empty(env, done, Some(a));
    if ts != [] {
      var j := |ts| - 1;
      assert Up(Up(a, j), 1) == Up(a, |ts|);
      StoreTyped(env, done, ts[j], Up(a, j));
      StoreItemsTyped(env, done, ts[..j], a);
      Then(env, done, EmitStore(ts[j]), EmitStoreItems(ts[..j]), Some(Up(a, |ts|)), Some(Up(a, j)), Some(a));
    }
  }

  /** Entered with the chain counter at m, an assignment nets its value exactly if m is above zero. */
  lemma {:induction false} AssignTyped(env: Env, done: set<Label>, s: Assign, n: nat, m: nat, a: Place)
    requires IsChain(s) && Fit(env, a) && HasEnv(env, n, EnvAssign(s, a))
    ensures Typed(env, done, EmitAssign(s, n, m), Some(a), Some(Up(a, if m > 0 then 1 else 0)))
    decreases s, 1
  {
    hide Typed, HasEnv, Sane, EmitExpr, EnvExpr, EmitAssigned;
    var k := if s.op.Some? then 1 else 0;
    var n1, b := n + (if s.op.Some? then ExprCount(s.target) else 0), Up(a, k);
    var e0 := if s.op.Some? then EnvExpr(s.target, a) else [];
    var e1 := match s.rhs case Plain(e) => EnvExpr(e, b) case Chain(c) => EnvAssign(c, b);
    assert Up(a, 0) == a;
    EnvSplit(env, n, e0, e1);
    Empty(env, done, Some(a));
    if s.op.Some? { ExprTyped(env, done, s.target, n, a); }
    match s.rhs {
      case Plain(e) => ExprTyped(env, done, e, n1, b);
      case Chain(c) => AssignTyped(env, done, c, n1, m + 1, b);
    }
    PendingSame(s.rhs, m);
    AssignedTyped(env, done, s, m > 0, a);
    assert Up(b, 1) == Up(a, k + 1);
    Then3(env, done, EmitOld(s, n), EmitRhs(s.rhs, n1, m), EmitAssigned(s, m > 0), Some(a), Some(b), Some(Up(b, 1)), Some(Up(a, if m > 0 then 1 else 0)));
  }

  lemma AssignedTyped(env: Env, done: set<Label>, s: Assign, keep: bool, a: Place)
    requires IsTarget(s.target) && Fit(env, a)
    ensures Typed(env, done, EmitAssigned(s, keep), Some(Up(a, if s.op.Some? then 2 else 1)), Some(Up(a, if keep then 1 else 0)))
  {
    hide Typed, Sane, EmitStore, IsTarget;
    var ops := if s.op.Some? then [Op(Operate(s.op.value))] else [];
    var dup := if keep then [Op(DupTop)] else [];
    var u, b := Some(Up(a, 1)), Up(a, if keep then 1 else 0);
    assert Down(Up(a, 2), 1) == Up(a, 1) && Up(b, 1) == Up(a, if keep then 2 else 1) && Up(Up(a, 1), 1) == Up(a, 2) && Up(a, 0) == a;
    Empty(env, done, u);
    if s.op.Some? { One(env, done, ops[0], Some(Up(a, 2))); }
    if keep { One(env, done, dup[0], u); }
    StoreTyped(env, done, s.target, b);
    Then3(env, done, ops, dup, EmitStore(s.target), Some(Up(a, if s.op.Some? then 2 else 1)), u, Some(Up(b, 1)), Some(b));
  }
}
