/** The labels of compiled code: each is defined once, jumped to where it is defined, and, if the jump
    is relative, defined further on. */
module Labels {
  import opened Values
  import opened Syntax
  import opened Assembly
  import opened Emit
  import opened Assembler

  function Hit(x: Line, l: Label): nat {
    if x == Lab(l) then 1 else 0
  }

  predicate Rel(x: Line, l: Label) {
    x.Code? && Relative(x.i, l)
  }

  predicate Abso(x: Line, l: Label) {
    x.Code? && Absolute(x.i, l)
  }

  /** A relative reference to l waits for a definition further on. */
  predicate Open(code: seq<Line>, l: Label) {
    code != [] && ((Rel(code[0], l) && Count(code[1..], l) == 0) || Open(code[1..], l))
  }

  /** There is an absolute reference to l. */
  predicate Abs(code: seq<Line>, l: Label) {
    code != [] && (Abso(code[0], l) || Abs(code[1..], l))
  }

  lemma {:induction false} Join2(a: seq<Line>, b: seq<Line>, l: Label)
    ensures Count(a + b, l) == Count(a, l) + Count(b, l)
    ensures Open(a + b, l) <==> (Open(a, l) && Count(b, l) == 0) || Open(b, l)
    ensures Abs(a + b, l) <==> Abs(a, l) || Abs(b, l)
  {
    CountAppend(a, b, l);
    if a == [] {
      assert a + b == b;
    } else {
      assert (a + b)[1..] == a[1..] + b;
      Join2(a[1..], b, l);
      CountAppend(a[1..], b, l);
    }
  }

  lemma Join3(a: seq<Line>, b: seq<Line>, c: seq<Line>, l: Label)
    ensures Count(a + b + c, l) == Count(a, l) + Count(b, l) + Count(c, l)
    ensures Open(a + b + c, l) <==> (Open(a, l) && Count(b, l) + Count(c, l) == 0) || (Open(b, l) && Count(c, l) == 0) || (Open(c, l))
    ensures Abs(a + b + c, l) <==> Abs(a, l) || Abs(b, l) || Abs(c, l)
  {
    hide Count, Open, Abs;
    Join2(a + b, c, l);
    Join2(a, b, l);
  }

  lemma Join4(a: seq<Line>, b: seq<Line>, c: seq<Line>, d: seq<Line>, l: Label)
    ensures Count(a + b + c + d, l) == Count(a, l) + Count(b, l) + Count(c, l) + Count(d, l)
    ensures Open(a + b + c + d, l) <==> (Open(a, l) && Count(b, l) + Count(c, l) + Count(d, l) == 0) || (Open(b, l) && Count(c, l) + Count(d, l) == 0) || (Open(c, l) && Count(d, l) == 0) || (Open(d, l))
    ensures Abs(a + b + c + d, l) <==> Abs(a, l) || Abs(b, l) || Abs(c, l) || Abs(d, l)
  {
    hide Count, Open, Abs;
    Join2(a + b + c, d, l);
    Join3(a, b, c, l);
  }

  lemma Join5(a: seq<Line>, b: seq<Line>, c: seq<Line>, d: seq<Line>, e: seq<Line>, l: Label)
    ensures Count(a + b + c + d + e, l) == Count(a, l) + Count(b, l) + Count(c, l) + Count(d, l) + Count(e, l)
    ensures Open(a + b + c + d + e, l) <==> (Open(a, l) && Count(b, l) + Count(c, l) + Count(d, l) + Count(e, l) == 0) || (Open(b, l) && Count(c, l) + Count(d, l) + Count(e, l) == 0) || (Open(c, l) && Count(d, l) + Count(e, l) == 0) || (Open(d, l) && Count(e, l) == 0) || (Open(e, l))
    ensures Abs(a + b + c + d + e, l) <==> Abs(a, l) || Abs(b, l) || Abs(c, l) || Abs(d, l) || Abs(e, l)
  {
    hide Count, Open, Abs;
    Join2(a + b + c + d, e, l);
    Join4(a, b, c, d, l);
  }

  lemma Join6(a: seq<Line>, b: seq<Line>, c: seq<Line>, d: seq<Line>, e: seq<Line>, f: seq<Line>, l: Label)
    ensures Count(a + b + c + d + e + f, l) == Count(a, l) + Count(b, l) + Count(c, l) + Count(d, l) + Count(e, l) + Count(f, l)
    ensures Open(a + b + c + d + e + f, l) <==> (Open(a, l) && Count(b, l) + Count(c, l) + Count(d, l) + Count(e, l) + Count(f, l) == 0) || (Open(b, l) && Count(c, l) + Count(d, l) + Count(e, l) + Count(f, l) == 0) || (Open(c, l) && Count(d, l) + Count(e, l) + Count(f, l) == 0) || (Open(d, l) && Count(e, l) + Count(f, l) == 0) || (Open(e, l) && Count(f, l) == 0) || (Open(f, l))
    ensures Abs(a + b + c + d + e + f, l) <==> Abs(a, l) || Abs(b, l) || Abs(c, l) || Abs(d, l) || Abs(e, l) || Abs(f, l)
  {
    hide Count, Open, Abs;
    Join2(a + b + c + d + e, f, l);
    Join5(a, b, c, d, e, l);
  }

  lemma Join7(a: seq<Line>, b: seq<Line>, c: seq<Line>, d: seq<Line>, e: seq<Line>, f: seq<Line>, g: seq<Line>, l: Label)
    ensures Count(a + b + c + d + e + f + g, l) == Count(a, l) + Count(b, l) + Count(c, l) + Count(d, l) + Count(e, l) + Count(f, l) + Count(g, l)
    ensures Open(a + b + c + d + e + f + g, l) <==> (Open(a, l) && Count(b, l) + Count(c, l) + Count(d, l) + Count(e, l) + Count(f, l) + Count(g, l) == 0) || (Open(b, l) && Count(c, l) + Count(d, l) + Count(e, l) + Count(f, l) + Count(g, l) == 0) || (Open(c, l) && Count(d, l) + Count(e, l) + Count(f, l) + Count(g, l) == 0) || (Open(d, l) && Count(e, l) + Count(f, l) + Count(g, l) == 0) || (Open(e, l) && Count(f, l) + Count(g, l) == 0) || (Open(f, l) && Count(g, l) == 0) || (Open(g, l))
    ensures Abs(a + b + c + d + e + f + g, l) <==> Abs(a, l) || Abs(b, l) || Abs(c, l) || Abs(d, l) || Abs(e, l) || Abs(f, l) || Abs(g, l)
  {
    hide Count, Open, Abs;
    Join2(a + b + c + d + e + f, g, l);
    Join6(a, b, c, d, e, f, l);
  }

  lemma Lit0(l: Label)
    ensures Count([], l) == 0 && !Open([], l) && !Abs([], l)
  {
  }

  lemma Lit1(a: Line, l: Label)
    ensures Count([a], l) == Hit(a, l)
    ensures Open([a], l) <==> (Rel(a, l))
    ensures Abs([a], l) <==> Abso(a, l)
  {
    assert [a][1..] == [];
  }

  lemma Lit2(a: Line, b: Line, l: Label)
    ensures Count([a, b], l) == Hit(a, l) + Hit(b, l)
    ensures Open([a, b], l) <==> (Rel(a, l) && Hit(b, l) == 0) || (Rel(b, l))
    ensures Abs([a, b], l) <==> Abso(a, l) || Abso(b, l)
  {
    assert [a, b][1..] == [b];
    Lit1(b, l);
  }

  lemma Lit3(a: Line, b: Line, c: Line, l: Label)
    ensures Count([a, b, c], l) == Hit(a, l) + Hit(b, l) + Hit(c, l)
    ensures Open([a, b, c], l) <==> (Rel(a, l) && Hit(b, l) + Hit(c, l) == 0) || (Rel(b, l) && Hit(c, l) == 0) || (Rel(c, l))
    ensures Abs([a, b, c], l) <==> Abso(a, l) || Abso(b, l) || Abso(c, l)
  {
    assert [a, b, c][1..] == [b, c];
    Lit2(b, c, l);
  }

  lemma Lit4(a: Line, b: Line, c: Line, d: Line, l: Label)
    ensures Count([a, b, c, d], l) == Hit(a, l) + Hit(b, l) + Hit(c, l) + Hit(d, l)
    ensures Open([a, b, c, d], l) <==> (Rel(a, l) && Hit(b, l) + Hit(c, l) + Hit(d, l) == 0) || (Rel(b, l) && Hit(c, l) + Hit(d, l) == 0) || (Rel(c, l) && Hit(d, l) == 0) || (Rel(d, l))
    ensures Abs([a, b, c, d], l) <==> Abso(a, l) || Abso(b, l) || Abso(c, l) || Abso(d, l)
  {
    assert [a, b, c, d][1..] == [b, c, d];
    Lit3(b, c, d, l);
  }

  lemma Lit5(a: Line, b: Line, c: Line, d: Line, e: Line, l: Label)
    ensures Count([a, b, c, d, e], l) == Hit(a, l) + Hit(b, l) + Hit(c, l) + Hit(d, l) + Hit(e, l)
    ensures Open([a, b, c, d, e], l) <==> (Rel(a, l) && Hit(b, l) + Hit(c, l) + Hit(d, l) + Hit(e, l) == 0) || (Rel(b, l) && Hit(c, l) + Hit(d, l) + Hit(e, l) == 0) || (Rel(c, l) && Hit(d, l) + Hit(e, l) == 0) || (Rel(d, l) && Hit(e, l) == 0) || (Rel(e, l))
    ensures Abs([a, b, c, d, e], l) <==> Abso(a, l) || Abso(b, l) || Abso(c, l) || Abso(d, l) || Abso(e, l)
  {
    assert [a, b, c, d, e][1..] == [b, c, d, e];
    Lit4(b, c, d, e, l);
  }

  lemma Lit6(a: Line, b: Line, c: Line, d: Line, e: Line, f: Line, l: Label)
    ensures Count([a, b, c, d, e, f], l) == Hit(a, l) + Hit(b, l) + Hit(c, l) + Hit(d, l) + Hit(e, l) + Hit(f, l)
    ensures Open([a, b, c, d, e, f], l) <==> (Rel(a, l) && Hit(b, l) + Hit(c, l) + Hit(d, l) + Hit(e, l) + Hit(f, l) == 0) || (Rel(b, l) && Hit(c, l) + Hit(d, l) + Hit(e, l) + Hit(f, l) == 0) || (Rel(c, l) && Hit(d, l) + Hit(e, l) + Hit(f, l) == 0) || (Rel(d, l) && Hit(e, l) + Hit(f, l) == 0) || (Rel(e, l) && Hit(f, l) == 0) || (Rel(f, l))
    ensures Abs([a, b, c, d, e, f], l) <==> Abso(a, l) || Abso(b, l) || Abso(c, l) || Abso(d, l) || Abso(e, l) || Abso(f, l)
  {
    assert [a, b, c, d, e, f][1..] == [b, c, d, e, f];
    Lit5(b, c, d, e, f, l);
  }

  lemma Lit7(a: Line, b: Line, c: Line, d: Line, e: Line, f: Line, g: Line, l: Label)
    ensures Count([a, b, c, d, e, f, g], l) == Hit(a, l) + Hit(b, l) + Hit(c, l) + Hit(d, l) + Hit(e, l) + Hit(f, l) + Hit(g, l)
    ensures Open([a, b, c, d, e, f, g], l) <==> (Rel(a, l) && Hit(b, l) + Hit(c, l) + Hit(d, l) + Hit(e, l) + Hit(f, l) + Hit(g, l) == 0) || (Rel(b, l) && Hit(c, l) + Hit(d, l) + Hit(e, l) + Hit(f, l) + Hit(g, l) == 0) || (Rel(c, l) && Hit(d, l) + Hit(e, l) + Hit(f, l) + Hit(g, l) == 0) || (Rel(d, l) && Hit(e, l) + Hit(f, l) + Hit(g, l) == 0) || (Rel(e, l) && Hit(f, l) + Hit(g, l) == 0) || (Rel(f, l) && Hit(g, l) == 0) || (Rel(g, l))
    ensures Abs([a, b, c, d, e, f, g], l) <==> Abso(a, l) || Abso(b, l) || Abso(c, l) || Abso(d, l) || Abso(e, l) || Abso(f, l) || Abso(g, l)
  {
    assert [a, b, c, d, e, f, g][1..] == [b, c, d, e, f, g];
    Lit6(b, c, d, e, f, g, l);
  }

  /** Label l is used as it should be in code that numbers its labels lo + 1 to hi and that may
      continue at cont. */
  predicate Fine(code: seq<Line>, l: Label, lo: nat, hi: nat, cont: Option<Label>) {
    && Count(code, l) <= 1 && !Open(code, l) && (Count(code, l) > 0 ==> lo < l.num <= hi)
    && (Abs(code, l) ==> Count(code, l) == 1 || cont == Some(l))
  }

  /** Label l does not occur. */
  predicate Without(code: seq<Line>, l: Label) {
    Count(code, l) == 0 && !Open(code, l) && !Abs(code, l)
  }

  // ----- expressions -----

  lemma {:induction false} ExprFine(e: Expr, n: nat, l: Label)
    ensures Fine(EmitExpr(e, n), l, n, n + ExprCount(e), None)
    decreases e, 2
  {
    hide Count, Open, Abs, Fine, EmitItems;
    if e.Operator? || e.Comparison? {
      BinaryFine(e, n, l);
    } else if e.And? || e.Or? {
      LogicFine(e, n, l);
    } else if e.Coalesce? {
      DefaultFine(e, n, l);
    } else if e.Ternary? {
      ChoiceFine(e, n, l);
    } else if e.TupleLit? {
      TupleFine(e.elems, n, l);
    } else {
      LeafFine(e, n, l);
    }
  }

  lemma {:induction false} DefaultFine(e: Expr, n: nat, l: Label)
    requires e.Coalesce?
    ensures Fine(EmitExpr(e, n), l, n, n + ExprCount(e), None)
    decreases e, 1
  {
    hide Count, Open, Abs, Fine, TwoCode, ShortCode, CoalesceCode, TernaryCode, EmitExpr, ExprCount;
    CoalesceIs(e, n);
    var n1 := n + 1 + ExprCount(e.l);
    ExprFine(e.l, n + 1, l);
    ExprFine(e.r, n1, l);
    CoalesceFine(n + 1, EmitExpr(e.l, n + 1), EmitExpr(e.r, n1), l, n1, n + ExprCount(e));
  }

  lemma {:induction false} ChoiceFine(e: Expr, n: nat, l: Label)
    requires e.Ternary?
    ensures Fine(EmitExpr(e, n), l, n, n + ExprCount(e), None)
    decreases e, 1
  {
    hide Count, Open, Abs, Fine, TwoCode, ShortCode, CoalesceCode, TernaryCode, EmitExpr, ExprCount;
    TernaryIs(e, n);
    var nt := n + 1 + ExprCount(e.c);
    var ne := nt + ExprCount(e.t);
    ExprFine(e.c, n + 1, l);
    ExprFine(e.t, nt, l);
    ExprFine(e.e, ne, l);
    TernaryFine(n + 1, EmitExpr(e.c, n + 1), EmitExpr(e.t, nt), EmitExpr(e.e, ne), l, nt, ne, n + ExprCount(e));
  }

  lemma {:induction false} BinaryFine(e: Expr, n: nat, l: Label)
    requires e.Operator? || e.Comparison?
    ensures Fine(EmitExpr(e, n), l, n, n + ExprCount(e), None)
    decreases e, 1
  {
    hide Count, Open, Abs, Fine, TwoCode, ShortCode, CoalesceCode, TernaryCode, EmitExpr, ExprCount;
    TwoIs(e, n);
    var a, b := FirstOf(e), SecondOf(e);
    var n1 := n + ExprCount(a);
    ExprFine(a, n, l);
    ExprFine(b, n1, l);
    TwoFine(EmitExpr(a, n), EmitExpr(b, n1), if e.Operator? then Operate(e.op) else Compare(e.cmp), l, n, n1, n + ExprCount(e));
  }

  lemma {:induction false} LogicFine(e: Expr, n: nat, l: Label)
    requires e.And? || e.Or?
    ensures Fine(EmitExpr(e, n), l, n, n + ExprCount(e), None)
    decreases e, 1
  {
    hide Count, Open, Abs, Fine, TwoCode, ShortCode, CoalesceCode, TernaryCode, EmitExpr, ExprCount;
    BoolIs(e, n);
    var end, n1 := L(if e.And? then AndEnd else OrEnd, n + 1), n + 1 + ExprCount(e.l);
    ExprFine(e.l, n + 1, l);
    ExprFine(e.r, n1, l);
    ShortFine(if e.And? then JumpIfFalse(end) else JumpIfTrue(end), end, EmitExpr(e.l, n + 1), EmitExpr(e.r, n1), l, n + 1, n1, n + ExprCount(e));
  }

  lemma LeafFine(e: Expr, n: nat, l: Label)
    requires e.Const? || e.NullLit? || e.Name?
    ensures Fine(EmitExpr(e, n), l, n, n, None)
  {
    Lit1(EmitExpr(e, n)[0], l);
  }

  lemma {:induction false} TupleFine(elems: seq<Expr>, n: nat, l: Label)
    ensures Fine(EmitItems(elems, n) + [Op(PackTuple(|elems|))], l, n, n + ItemsCount(elems), None)
    decreases elems, 1
  {
    hide Count, Open, Abs, EmitItems, ItemsCount;
    ItemsFine(elems, n, l);
    Join2(EmitItems(elems, n), [Op(PackTuple(|elems|))], l);
    Lit1(Op(PackTuple(|elems|)), l);
  }

  lemma {:induction false} ItemsFine(elems: seq<Expr>, n: nat, l: Label)
    ensures Fine(EmitItems(elems, n), l, n, n + ItemsCount(elems), None)
    decreases elems, 0
  {
    hide Count, Open, Abs, EmitExpr, ExprCount;
    Lit0(l);
    if elems != [] {
      ExprFine(elems[0], n, l);
      ItemsFine(elems[1..], n + ExprCount(elems[0]), l);
      Join2(EmitExpr(elems[0], n), EmitItems(elems[1..], n + ExprCount(elems[0])), l);
    }
  }

  lemma TwoFine(ca: Snippet, cb: Snippet, i: Instr<Label>, l: Label, n: nat, n1: nat, n2: nat)
    requires Fine(ca, l, n, n1, None) && Fine(cb, l, n1, n2, None)
    requires n <= n1 <= n2 && (i.Operate? || i.Compare?)
    ensures Fine(TwoCode(ca, cb, i), l, n, n2, None)
  {
    hide Count, Open, Abs;
    Join3(ca, cb, [Op(i)], l);
    Lit1(Op(i), l);
  }

  lemma ShortFine(i: Instr<Label>, end: Label, ca: Snippet, cb: Snippet, l: Label, n: nat, n1: nat, n2: nat)
    requires Fine(ca, l, n, n1, None) && Fine(cb, l, n1, n2, None)
    requires 0 < n <= n1 <= n2 && end.num == n && (i == JumpIfFalse(end) || i == JumpIfTrue(end))
    ensures Fine(ShortCode(i, end, ca, cb), l, n - 1, n2, None)
  {
    hide Count, Open, Abs;
    Join4(ca, [Op(i), Op(PopTop)], cb, [Lab(end)], l);
    Lit2(Op(i), Op(PopTop), l);
    Lit1(Lab(end), l);
  }

  lemma CoalesceFine(n: nat, ca: Snippet, cb: Snippet, l: Label, n1: nat, n2: nat)
    requires Fine(ca, l, n, n1, None) && Fine(cb, l, n1, n2, None) && 0 < n <= n1 <= n2
    ensures Fine(CoalesceCode(n, ca, cb), l, n - 1, n2, None)
  {
    hide Count, Open, Abs;
    var dl, el := L(CoalesceDefault, n), L(CoalesceEnd, n);
    Join4(ca, [Op(DupTop), Op(JumpIfFalse(dl)), Op(PopTop), Op(JumpAbsolute(el)), Lab(dl), Op(PopTop), Op(PopTop)],
         cb, [Op(JumpAbsolute(el)), Lab(el)], l);
    Lit7(Op(DupTop), Op(JumpIfFalse(dl)), Op(PopTop), Op(JumpAbsolute(el)), Lab(dl), Op(PopTop), Op(PopTop), l);
    Lit2(Op(JumpAbsolute(el)), Lab(el), l);
  }

  lemma TernaryFine(n: nat, cc: Snippet, ct: Snippet, cf: Snippet, l: Label, n1: nat, n2: nat, n3: nat)
    requires Fine(cc, l, n, n1, None) && Fine(ct, l, n1, n2, None) && Fine(cf, l, n2, n3, None)
    requires 0 < n <= n1 <= n2 <= n3
    ensures Fine(TernaryCode(n, cc, ct, cf), l, n - 1, n3, None)
  {
    hide Count, Open, Abs;
    var fl, el := L(TernaryElse, n), L(TernaryEnd, n);
    Join6(cc, [Op(JumpIfFalse(fl)), Op(PopTop)], ct, [Op(JumpAbsolute(el)), Lab(fl), Op(PopTop)],
         cf, [Op(JumpAbsolute(el)), Lab(el)], l);
    Lit2(Op(JumpIfFalse(fl)), Op(PopTop), l);
    Lit3(Op(JumpAbsolute(el)), Lab(fl), Op(PopTop), l);
    Lit2(Op(JumpAbsolute(el)), Lab(el), l);
  }

  // ----- assignments -----

  /** Stores have no labels at all. */
  lemma {:induction false} StoreFine(t: Expr, l: Label)
    ensures Without(EmitStore(t), l)
    decreases t, 1
  {
    hide Count, Open, Abs, EmitStoreItems;
    Lit0(l);
    if t.Name? {
      Lit1(Op(StoreId(t.id)), l);
    } else if t.TupleLit? {
      StoreItemsFine(t.elems, l);
      Join2([Op(UnpackTuple(|t.elems|))], EmitStoreItems(t.elems), l);
      Lit1(Op(UnpackTuple(|t.elems|)), l);
    }
  }

  lemma {:induction false} StoreItemsFine(ts: seq<Expr>, l: Label)
    ensures Without(EmitStoreItems(ts), l)
    decreases ts, 0
  {
    hide Count, Open, Abs, EmitStore;
    Lit0(l);
    if ts != [] {
      StoreFine(ts[|ts| - 1], l);
      StoreItemsFine(ts[..|ts| - 1], l);
      Join2(EmitStore(ts[|ts| - 1]), EmitStoreItems(ts[..|ts| - 1]), l);
    }
  }

  lemma {:induction false} AssignFine(a: Assign, n: nat, m: nat, l: Label)
    ensures Fine(EmitAssign(a, n, m), l, n, n + AssignCount(a), None)
    decreases a
  {
    hide Count, Open, Abs, EmitExpr, ExprCount, EmitAssigned;
    Lit0(l);
    var n1, keep := n + (if a.op.Some? then ExprCount(a.target) else 0), Pending(a.rhs, m) > 0;
    Join3(EmitOld(a, n), EmitRhs(a.rhs, n1, m), EmitAssigned(a, keep), l);
    if a.op.Some? { ExprFine(a.target, n, l); }
    match a.rhs {
      case Plain(e) => ExprFine(e, n1, l);
      case Chain(b) => AssignFine(b, n1, m + 1, l);
    }
    AssignedFine(a, keep, l);
  }

  lemma AssignedFine(a: Assign, keep: bool, l: Label)
    ensures Without(EmitAssigned(a, keep), l)
  {
    hide Count, Open, Abs, EmitStore;
    Lit0(l);
    var ops, dup := if a.op.Some? then [Op(Operate(a.op.value))] else [], if keep then [Op(DupTop)] else [];
    Join3(ops, dup, EmitStore(a.target), l);
    StoreFine(a.target, l);
    Lit1(Op(DupTop), l);
    if a.op.Some? { Lit1(Op(Operate(a.op.value)), l); }
  }
}
