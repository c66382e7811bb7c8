/** The code of an expression computes its value: it pushes one value and leaves everything else as it
    was, or raises what evaluation raises. */
module SimulateExpr {
  import opened Values
  import opened Syntax
  import opened Semantics
  import opened Assembly
  import opened Emit
  import opened Machine
  import opened Assembler
  import opened Limits
  import opened Trace
  import opened Steps

  /** An exception is on its way out of the code that was entered in c; values may be left above the
      stack of c, everything below is as it was. */
  predicate Raising(d: Vm, c: Vm, vars: Vars, y: Value) {
    && d.status.Running? && d.reason == REASON_EXCEPTION && d.exc == Some(y)
    && d.blocks == c.blocks && d.vars == vars && d.cursors == c.cursors
    && c.stack <= d.stack
  }

  /** What the machine state d has to be when code entered in c, ending before line end, has computed r. */
  ghost predicate Computed(x: Ctx, c: Vm, r: Result, end: nat, d: Vm) {
    match r
    case Ok(v) => d == c.(ip := Off(x.p, end), stack := c.stack + [v])
    case Raise(y) => Raising(d, c, c.vars, y)
    case Fatal => d.status.Fatal?
  }

  lemma Yields(x: Ctx, c: Vm, r: Result, end: nat, d: Vm)
    requires Computed(x, c, r, end, d) && r.Ok?
    ensures d == c.(ip := Off(x.p, end), stack := c.stack + [r.v])
    ensures d.stack[..|d.stack| - 1] == c.stack
  {
  }

  // ----- where the parts of a construct stand -----

  lemma TwoParts(x: Ctx, k: nat, ca: Snippet, cb: Snippet, i: Instr<Label>)
    requires HasCode(x.p, k, TwoCode(ca, cb, i))
    ensures HasCode(x.p, k, ca) && HasCode(x.p, k + |ca|, cb) && HasCode(x.p, k + |ca| + |cb|, [Op(i)])
    ensures |TwoCode(ca, cb, i)| == |ca| + |cb| + 1
  {
    hide HasCode;
    Split3(x.p, k, ca, cb, [Op(i)]);
  }

  lemma ShortParts(x: Ctx, k: nat, ca: Snippet, cb: Snippet, i: Instr<Label>, end: Label)
    requires Sound(x) && HasCode(x.p, k, ShortCode(i, end, ca, cb))
    ensures HasCode(x.p, k, ca) && HasCode(x.p, k + |ca|, [Op(i), Op(PopTop)]) && HasCode(x.p, k + |ca| + 2, cb)
    ensures |ShortCode(i, end, ca, cb)| == |ca| + |cb| + 3
    ensures Off(x.p, k + |ca| + 2 + |cb|) == Addr(x.p, end) == Off(x.p, k + |ca| + |cb| + 3)
  {
    hide HasCode, Sound, Off, Addr;
    Split4(x.p, k, ca, [Op(i), Op(PopTop)], cb, [Lab(end)]);
    LabelAt(x, k + |ca| + 2 + |cb|, [Lab(end)], 0);
  }

  lemma CoalesceParts(x: Ctx, k: nat, n: nat, ca: Snippet, cb: Snippet)
    requires Sound(x) && HasCode(x.p, k, CoalesceCode(n, ca, cb))
    ensures var dl, el, k1, k2 := L(CoalesceDefault, n), L(CoalesceEnd, n), k + |ca|, k + |ca| + 7 + |cb|;
            && HasCode(x.p, k, ca) && HasCode(x.p, k1 + 7, cb) && HasCode(x.p, k2, [Op(JumpAbsolute(el)), Lab(el)])
            && HasCode(x.p, k1, [Op(DupTop), Op(JumpIfFalse(dl)), Op(PopTop), Op(JumpAbsolute(el)), Lab(dl), Op(PopTop), Op(PopTop)])
            && |CoalesceCode(n, ca, cb)| == |ca| + |cb| + 9
            && Addr(x.p, dl) == Off(x.p, k1 + 5) && Addr(x.p, el) == Off(x.p, k2 + 2)
  {
    var dl, el, k1, k2 := L(CoalesceDefault, n), L(CoalesceEnd, n), k + |ca|, k + |ca| + 7 + |cb|;
    var mid := [Op(DupTop), Op(JumpIfFalse(dl)), Op(PopTop), Op(JumpAbsolute(el)), Lab(dl), Op(PopTop), Op(PopTop)];
    var end := [Op(JumpAbsolute(el)), Lab(el)];
    hide HasCode, Sound, Off, Addr;
    Split4(x.p, k, ca, mid, cb, end);
    LabelAt(x, k1, mid, 4);
    LabelAt(x, k2, end, 1);
  }

  lemma TernaryParts(x: Ctx, k: nat, n: nat, ca: Snippet, cb: Snippet, cf: Snippet)
    requires Sound(x) && HasCode(x.p, k, TernaryCode(n, ca, cb, cf))
    ensures var fl, el, k1 := L(TernaryElse, n), L(TernaryEnd, n), k + |ca|;
            var k2, k3 := k1 + 2 + |cb|, k1 + 5 + |cb| + |cf|;
            && HasCode(x.p, k, ca) && HasCode(x.p, k1 + 2, cb) && HasCode(x.p, k2 + 3, cf)
            && HasCode(x.p, k1, [Op(JumpIfFalse(fl)), Op(PopTop)])
            && HasCode(x.p, k2, [Op(JumpAbsolute(el)), Lab(fl), Op(PopTop)])
            && HasCode(x.p, k3, [Op(JumpAbsolute(el)), Lab(el)])
            && |TernaryCode(n, ca, cb, cf)| == |ca| + |cb| + |cf| + 7
            && Addr(x.p, fl) == Off(x.p, k2 + 2) && Addr(x.p, el) == Off(x.p, k3 + 2)
  {
    var fl, el, k1 := L(TernaryElse, n), L(TernaryEnd, n), k + |ca|;
    var s1, s2, s3 := [Op(JumpIfFalse(fl)), Op(PopTop)], [Op(JumpAbsolute(el)), Lab(fl), Op(PopTop)], [Op(JumpAbsolute(el)), Lab(el)];
    hide HasCode, Sound, Off, Addr;
    Split6(x.p, k, ca, s1, cb, s2, cf, s3);
    LabelAt(x, k1 + 2 + |cb|, s2, 1);
    LabelAt(x, k1 + 5 + |cb| + |cf|, s3, 1);
  }

  // ----- runs -----

  lemma {:induction false} SimExpr(x: Ctx, e: Expr, k: nat, l: nat, n: nat, c: Vm) returns (m: nat, d: Vm)
    requires Here(x, n, c, k) && HasCode(x.p, k, EmitExpr(e, l))
    requires |c.stack| + ExprNeed(e) <= x.size
    ensures m >= n && Reached(x, m, d) && Computed(x, c, Eval(x.w, e, c.vars), k + |EmitExpr(e, l)|, d)
    decreases e, 2
  {
    hide Sound, Reached, HasCode, Off, Computed, EmitExpr, Eval, ExprNeed;
    if e.Const? || e.NullLit? || e.Name? {
      m, d := SimLeaf(x, e, k, l, n, c);
    } else if e.Coalesce? || e.Ternary? {
      m, d := SimEither(x, e, k, l, n, c);
    } else if e.And? || e.Or? {
      m, d := SimLogic(x, e, k, l, n, c);
    } else if e.TupleLit? {
      m, d := SimTuple(x, e, k, l, n, c);
    } else {
      m, d := SimBinary(x, e, k, l, n, c);
    }
  }

  lemma {:induction false} SimBinary(x: Ctx, e: Expr, k: nat, l: nat, n: nat, c: Vm) returns (m: nat, d: Vm)
    requires e.Operator? || e.Comparison?
    requires Here(x, n, c, k) && HasCode(x.p, k, EmitExpr(e, l))
    requires |c.stack| + ExprNeed(e) <= x.size
    ensures m >= n && Reached(x, m, d) && Computed(x, c, Eval(x.w, e, c.vars), k + |EmitExpr(e, l)|, d)
    decreases e, 1
  {
    hide Sound, Reached, HasCode, Off, Computed, TwoCode, EmitExpr, Eval, ExprNeed, ExprCount;
    TwoMeans(x.w, e, c.vars);
    TwoIs(e, l);
    if e.Operator? {
      m, d := SimTwo(x, e, e.l, e.r, Operate(e.op), k, l, n, c);
    } else {
      m, d := SimTwo(x, e, e.r, e.l, Compare(e.cmp), k, l, n, c);
    }
  }

  /** What it means, and how much room it takes. */
  lemma TwoMeans(w: World, e: Expr, vars: Vars)
    requires e.Operator? || e.Comparison?
    ensures var a, b := FirstOf(e), SecondOf(e);
            var va, vb := Eval(w, a, vars), Eval(w, b, vars);
            && ExprNeed(e) >= ExprNeed(a) && ExprNeed(e) >= 1 + ExprNeed(b)
            && Eval(w, e, vars) == if !va.Ok? then va else if !vb.Ok? then vb
                                   else if e.Operator? then w.operate(e.op, va.v, vb.v) else w.compare(e.cmp, vb.v, va.v)
  {
    hide EvalItems, ItemsNeed, Truth, Lookup;
  }

  lemma {:induction false} SimLogic(x: Ctx, e: Expr, k: nat, l: nat, n: nat, c: Vm) returns (m: nat, d: Vm)
    requires e.And? || e.Or?
    requires Here(x, n, c, k) && HasCode(x.p, k, EmitExpr(e, l))
    requires |c.stack| + ExprNeed(e) <= x.size
    ensures m >= n && Reached(x, m, d) && Computed(x, c, Eval(x.w, e, c.vars), k + |EmitExpr(e, l)|, d)
    decreases e, 1
  {
    hide Sound, Reached, HasCode, Off, Computed, ShortCode, EmitExpr, Eval, ExprNeed, ExprCount, Truth;
    BoolMeans(x.w, e, c.vars);
    BoolIs(e, l);
    var end := L(if e.And? then AndEnd else OrEnd, l + 1);
    m, d := SimShort(x, e, e.l, e.r, if e.And? then JumpIfFalse(end) else JumpIfTrue(end), end, k, l + 1, n, c);
  }

  /** What it means, and how much room it takes. */
  lemma BoolMeans(w: World, e: Expr, vars: Vars)
    requires e.And? || e.Or?
    ensures var va := Eval(w, e.l, vars);
            Eval(w, e, vars) == if va.Ok? && Truth(w, va.v) == e.And? then Eval(w, e.r, vars) else va
    ensures ExprNeed(e) >= ExprNeed(e.l) && ExprNeed(e) >= ExprNeed(e.r)
  {
    hide EvalItems, ItemsNeed, Truth, Lookup;
  }

  lemma {:induction false} SimEither(x: Ctx, e: Expr, k: nat, l: nat, n: nat, c: Vm) returns (m: nat, d: Vm)
    requires e.Coalesce? || e.Ternary?
    requires Here(x, n, c, k) && HasCode(x.p, k, EmitExpr(e, l))
    requires |c.stack| + ExprNeed(e) <= x.size
    ensures m >= n && Reached(x, m, d) && Computed(x, c, Eval(x.w, e, c.vars), k + |EmitExpr(e, l)|, d)
    decreases e, 1
  {
    hide Sound, Reached, HasCode, Off, Computed, CoalesceCode, TernaryCode, EmitExpr, Eval, ExprNeed, ExprCount, Truth;
    if e.Coalesce? {
      CoalesceMeans(x.w, e, c.vars);
      CoalesceIs(e, l);
      m, d := SimCoalesce(x, e, e.l, e.r, k, l + 1, n, c);
    } else {
      TernaryMeans(x.w, e, c.vars);
      TernaryIs(e, l);
      m, d := SimTernary(x, e, e.c, e.t, e.e, k, l + 1, n, c);
    }
  }

  /** What it means, and how much room it takes. */
  lemma CoalesceMeans(w: World, e: Expr, vars: Vars)
    requires e.Coalesce?
    ensures var va := Eval(w, e.l, vars); Eval(w, e, vars) == if va.Ok? && !Truth(w, va.v) then Eval(w, e.r, vars) else va
    ensures ExprNeed(e) >= 2 && ExprNeed(e) >= ExprNeed(e.l) && ExprNeed(e) >= ExprNeed(e.r)
  {
    hide EvalItems, ItemsNeed, Truth, Lookup;
  }

  /** What it means, and how much room it takes. */
  lemma TernaryMeans(w: World, e: Expr, vars: Vars)
    requires e.Ternary?
    ensures var va := Eval(w, e.c, vars); Eval(w, e, vars) == if !va.Ok? then va else Eval(w, if Truth(w, va.v) then e.t else e.e, vars)
    ensures ExprNeed(e) >= ExprNeed(e.c) && ExprNeed(e) >= ExprNeed(e.t) && ExprNeed(e) >= ExprNeed(e.e)
  {
    hide EvalItems, ItemsNeed, Truth, Lookup;
  }

  lemma SimLeaf(x: Ctx, e: Expr, k: nat, l: nat, n: nat, c: Vm) returns (m: nat, d: Vm)
    requires e.Const? || e.NullLit? || e.Name?
    requires Here(x, n, c, k) && HasCode(x.p, k, EmitExpr(e, l)) && |c.stack| + ExprNeed(e) <= x.size
    ensures m >= n && Reached(x, m, d) && Computed(x, c, Eval(x.w, e, c.vars), k + |EmitExpr(e, l)|, d)
  {
    hide Sound, Reached, HasCode, Off, ExecInstr;
    d := DoLoad(x, n, c, k, EmitExpr(e, l), 0, EmitExpr(e, l)[0].i);
    m := n + 1;
  }

  /** Two operands in turn, then the instruction that takes both. */
  lemma {:induction false} SimTwo(x: Ctx, e: Expr, a: Expr, b: Expr, i: Instr<Label>, k: nat, l: nat, n: nat, c: Vm)
    returns (m: nat, d: Vm)
    requires a < e && b < e && (i.Operate? || i.Compare?)
    requires Here(x, n, c, k) && HasCode(x.p, k, TwoCode(EmitExpr(a, l), EmitExpr(b, l + ExprCount(a)), i))
    requires |c.stack| + ExprNeed(a) <= x.size && |c.stack| + 1 + ExprNeed(b) <= x.size
    ensures m >= n && Reached(x, m, d)
    ensures var va, vb := Eval(x.w, a, c.vars), Eval(x.w, b, c.vars);
            Computed(x, c,
                     if !va.Ok? then va else if !vb.Ok? then vb
                     else if i.Operate? then x.w.operate(i.op, va.v, vb.v) else x.w.compare(i.cmp, vb.v, va.v),
                     k + |TwoCode(EmitExpr(a, l), EmitExpr(b, l + ExprCount(a)), i)|, d)
    decreases e, 0
  {
    hide Sound, Reached, HasCode, ExecInstr, Off, Addr, TwoCode, ShortCode, CoalesceCode, TernaryCode, EmitExpr, Eval, ExprNeed, ExprCount;
    NestedAt(x, n, c);
    var ca, cb := EmitExpr(a, l), EmitExpr(b, l + ExprCount(a));
    TwoParts(x, k, ca, cb, i);
    m, d := SimExpr(x, a, k, l, n, c);
    if Eval(x.w, a, c.vars).Ok? {
      m, d := SimExpr(x, b, k + |ca|, l + ExprCount(a), m, d);
      if Eval(x.w, b, c.vars).Ok? {
        assert d.stack[..|d.stack| - 2] == c.stack;
        d := DoTwo(x, m, d, k + |ca| + |cb|, [Op(i)], 0, i);
        m := m + 1;
      }
    }
  }

  /** `and` and `or`: the left value stays if it decides, otherwise it makes room for the right one. */
  lemma {:induction false} SimShort(x: Ctx, e: Expr, a: Expr, b: Expr, i: Instr<Label>, end: Label,
                                    k: nat, l: nat, n: nat, c: Vm)
    returns (m: nat, d: Vm)
    requires a < e && b < e && (i == JumpIfFalse(end) || i == JumpIfTrue(end))
    requires Here(x, n, c, k)
    requires HasCode(x.p, k, ShortCode(i, end, EmitExpr(a, l), EmitExpr(b, l + ExprCount(a))))
    requires |c.stack| + ExprNeed(a) <= x.size && |c.stack| + ExprNeed(b) <= x.size
    ensures m >= n && Reached(x, m, d)
    ensures var va := Eval(x.w, a, c.vars);
            Computed(x, c, if va.Ok? && Truth(x.w, va.v) == i.JumpIfFalse? then Eval(x.w, b, c.vars) else va,
                     k + |ShortCode(i, end, EmitExpr(a, l), EmitExpr(b, l + ExprCount(a)))|, d)
    decreases e, 0
  {
    hide Sound, Reached, HasCode, ExecInstr, Off, Addr, TwoCode, ShortCode, CoalesceCode, TernaryCode, EmitExpr, Eval, ExprNeed, ExprCount;
    NestedAt(x, n, c);
    var ca, mid, cb := EmitExpr(a, l), [Op(i), Op(PopTop)], EmitExpr(b, l + ExprCount(a));
    var k1 := k + |ca|;
    ShortParts(x, k, ca, cb, i, end);
    m, d := SimExpr(x, a, k, l, n, c);
    var va := Eval(x.w, a, c.vars);
    if va.Ok? {
      d := DoTest(x, m, d, k1, mid, 0, i);
      m := m + 1;
      if Truth(x.w, va.v) == i.JumpIfFalse? {
        d := DoPop(x, m, d, k1, mid, 1);
        m := m + 1;
        assert d.stack == c.stack;
        m, d := SimExpr(x, b, k1 + 2, l + ExprCount(a), m, d);
      }
    }
  }

  lemma {:induction false} SimCoalesce(x: Ctx, e: Expr, a: Expr, b: Expr, k: nat, l: nat, n: nat, c: Vm)
    returns (m: nat, d: Vm)
    requires a < e && b < e && Here(x, n, c, k) && HasCode(x.p, k, CoalesceCode(l, EmitExpr(a, l), EmitExpr(b, l + ExprCount(a))))
    requires |c.stack| + ExprNeed(a) <= x.size && |c.stack| + ExprNeed(b) <= x.size && |c.stack| + 2 <= x.size
    ensures m >= n && Reached(x, m, d)
    ensures var va := Eval(x.w, a, c.vars);
            Computed(x, c, if va.Ok? && !Truth(x.w, va.v) then Eval(x.w, b, c.vars) else va,
                     k + |CoalesceCode(l, EmitExpr(a, l), EmitExpr(b, l + ExprCount(a)))|, d)
    decreases e, 0
  {
    hide Sound, Reached, HasCode, ExecInstr, Off, Addr, TwoCode, ShortCode, CoalesceCode, TernaryCode, EmitExpr, Eval, ExprNeed, ExprCount;
    NestedAt(x, n, c);
    var dl, el := L(CoalesceDefault, l), L(CoalesceEnd, l);
    var ca, cb := EmitExpr(a, l), EmitExpr(b, l + ExprCount(a));
    var k1, k2 := k + |ca|, k + |ca| + 7 + |cb|;
    CoalesceParts(x, k, l, ca, cb);
    m, d := SimExpr(x, a, k, l, n, c);
    var va := Eval(x.w, a, c.vars);
    if va.Ok? {
      m, d := SimChoice(x, l, va.v, k1, m, d, c);
      if !Truth(x.w, va.v) {
        m, d := SimExpr(x, b, k1 + 7, l + ExprCount(a), m, d);
        if Eval(x.w, b, c.vars).Ok? {
          d := DoJump(x, m, d, k2, [Op(JumpAbsolute(el)), Lab(el)], 0, el);
          m := m + 1;
        }
      }
    }
  }

  /** The lines between the operands of `??`: keep the value v of the first, or take it away. */
  lemma SimChoice(x: Ctx, l: nat, v: Value, k1: nat, n: nat, c1: Vm, c: Vm) returns (m: nat, d: Vm)
    requires c1 == c.(ip := Off(x.p, k1), stack := c.stack + [v]) && Here(x, n, c1, k1) && Floor(c) <= |c.stack| <= x.size - 2
    requires var dl, el := L(CoalesceDefault, l), L(CoalesceEnd, l);
             && HasCode(x.p, k1, [Op(DupTop), Op(JumpIfFalse(dl)), Op(PopTop), Op(JumpAbsolute(el)), Lab(dl), Op(PopTop), Op(PopTop)])
             && Addr(x.p, dl) == Off(x.p, k1 + 5)
    ensures m >= n && Reached(x, m, d)
    ensures d == if Truth(x.w, v) then c1.(ip := Addr(x.p, L(CoalesceEnd, l))) else c.(ip := Off(x.p, k1 + 7))
  {
    hide Sound, Reached, HasCode, ExecInstr, Off, Addr;
    var dl, el := L(CoalesceDefault, l), L(CoalesceEnd, l);
    var mid := [Op(DupTop), Op(JumpIfFalse(dl)), Op(PopTop), Op(JumpAbsolute(el)), Lab(dl), Op(PopTop), Op(PopTop)];
    d := DoDup(x, n, c1, k1, mid, 0);
    d := DoTest(x, n + 1, d, k1, mid, 1, JumpIfFalse(dl));
    m := n + 4;
    if Truth(x.w, v) {
      d := DoPop(x, n + 2, d, k1, mid, 2);
      assert d.stack == c1.stack;
      d := DoJump(x, n + 3, d, k1, mid, 3, el);
    } else {
      d := DoPop(x, n + 2, d, k1, mid, 5);
      d := DoPop(x, n + 3, d, k1, mid, 6);
      assert d.stack == c.stack;
    }
  }

  lemma {:induction false} SimTernary(x: Ctx, e: Expr, a: Expr, b: Expr, f: Expr, k: nat, l: nat, n: nat, c: Vm)
    returns (m: nat, d: Vm)
    requires a < e && b < e && f < e && Here(x, n, c, k)
    requires HasCode(x.p, k, TernaryCode(l, EmitExpr(a, l), EmitExpr(b, l + ExprCount(a)), EmitExpr(f, l + ExprCount(a) + ExprCount(b))))
    requires |c.stack| + ExprNeed(a) <= x.size && |c.stack| + ExprNeed(b) <= x.size && |c.stack| + ExprNeed(f) <= x.size
    ensures m >= n && Reached(x, m, d)
    ensures var va := Eval(x.w, a, c.vars);
            Computed(x, c, if !va.Ok? then va else Eval(x.w, if Truth(x.w, va.v) then b else f, c.vars),
                     k + |TernaryCode(l, EmitExpr(a, l), EmitExpr(b, l + ExprCount(a)), EmitExpr(f, l + ExprCount(a) + ExprCount(b)))|, d)
    decreases e, 0
  {
    hide Sound, Reached, HasCode, ExecInstr, Off, Addr, TwoCode, ShortCode, CoalesceCode, TernaryCode, EmitExpr, Eval, ExprNeed, ExprCount;
    NestedAt(x, n, c);
    var fl, el := L(TernaryElse, l), L(TernaryEnd, l);
    var lb := l + ExprCount(a);
    var ca, cb, cf := EmitExpr(a, l), EmitExpr(b, lb), EmitExpr(f, lb + ExprCount(b));
    var s1, s2, s3 := [Op(JumpIfFalse(fl)), Op(PopTop)], [Op(JumpAbsolute(el)), Lab(fl), Op(PopTop)], [Op(JumpAbsolute(el)), Lab(el)];
    var k1 := k + |ca|;
    var k2 := k1 + 2 + |cb|;
    var k3 := k2 + 3 + |cf|;
    TernaryParts(x, k, l, ca, cb, cf);
    m, d := SimExpr(x, a, k, l, n, c);
    var va := Eval(x.w, a, c.vars);
    if va.Ok? {
      d := DoTest(x, m, d, k1, s1, 0, JumpIfFalse(fl));
      if Truth(x.w, va.v) {
        d := DoPop(x, m + 1, d, k1, s1, 1);
        assert d.stack == c.stack;
        m, d := SimExpr(x, b, k1 + 2, lb, m + 2, d);
        if Eval(x.w, b, c.vars).Ok? {
          d := DoJump(x, m, d, k2, s2, 0, el);
          m := m + 1;
        }
      } else {
        d := DoPop(x, m + 1, d, k2, s2, 2);
        assert d.stack == c.stack;
        m, d := SimExpr(x, f, k2 + 3, lb + ExprCount(b), m + 2, d);
        if Eval(x.w, f, c.vars).Ok? {
          d := DoJump(x, m, d, k3, s3, 0, el);
          m := m + 1;
        }
      }
    }
  }

  lemma {:induction false} SimTuple(x: Ctx, e: Expr, k: nat, l: nat, n: nat, c: Vm) returns (m: nat, d: Vm)
    requires e.TupleLit? && Here(x, n, c, k) && HasCode(x.p, k, EmitExpr(e, l))
    requires |c.stack| + ExprNeed(e) <= x.size
    ensures m >= n && Reached(x, m, d) && Computed(x, c, Eval(x.w, e, c.vars), k + |EmitExpr(e, l)|, d)
    decreases e, 1
  {
    hide Sound, Reached, HasCode, ExecInstr, Off, Addr, EmitItems, EvalItems, ItemsNeed;
    NestedAt(x, n, c);
    var elems := e.elems;
    var items := EmitItems(elems, l);
    Split(x.p, k, items, [Op(PackTuple(|elems|))]);
    m, d := SimItems(x, elems, k, l, n, c);
    if EvalItems(x.w, elems, c.vars).OkAll? {
      var vs := EvalItems(x.w, elems, c.vars).vs;
      assert d.stack[|c.stack|..] == vs && d.stack[..|c.stack|] == c.stack;
      d := DoPack(x, m, d, k + |items|, [Op(PackTuple(|elems|))], 0, vs);
      m := m + 1;
    }
  }

  lemma {:induction false} SimItems(x: Ctx, elems: seq<Expr>, k: nat, l: nat, n: nat, c: Vm) returns (m: nat, d: Vm)
    requires Here(x, n, c, k) && HasCode(x.p, k, EmitItems(elems, l))
    requires |c.stack| + ItemsNeed(elems) <= x.size
    ensures m >= n && Reached(x, m, d)
    ensures var r := EvalItems(x.w, elems, c.vars);
            if r.OkAll? then |r.vs| == |elems| && d == c.(ip := Off(x.p, k + |EmitItems(elems, l)|), stack := c.stack + r.vs)
            else if r.RaiseAll? then Raising(d, c, c.vars, r.x)
            else d.status.Fatal?
    decreases elems, 0
  {
    hide Sound, Reached, HasCode, ExecInstr, Off, Addr, TwoCode, ShortCode, CoalesceCode, TernaryCode, EmitExpr, Eval, ExprNeed, ExprCount;
    m, d := n, c;
    if elems == [] {
      assert c.stack + [] == c.stack;
    } else {
      var first, rest := EmitExpr(elems[0], l), EmitItems(elems[1..], l + ExprCount(elems[0]));
      Split(x.p, k, first, rest);
      m, d := SimExpr(x, elems[0], k, l, n, c);
      var v := Eval(x.w, elems[0], c.vars);
      if v.Ok? {
        m, d := SimItems(x, elems[1..], k + |first|, l + ExprCount(elems[0]), m, d);
        var vs := EvalItems(x.w, elems[1..], c.vars);
        if vs.OkAll? { assert c.stack + [v.v] + vs.vs == c.stack + ([v.v] + vs.vs); }
      }
    }
  }
}
