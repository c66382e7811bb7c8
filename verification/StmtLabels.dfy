/** The labels of compiled statements and frames. */
module StmtLabels {
  import opened Values
  import opened Syntax
  import opened Assembly
  import opened Emit
  import opened Assembler
  import opened Labels

  predicate Known(cont: Option<Label>, n: nat) {
    cont.Some? ==> cont.value.num <= n
  }

  lemma FineMore(code: Snippet, l: Label, lo: nat, hi: nat, hi2: nat, cont: Option<Label>)
    requires hi <= hi2
    ensures Fine(code, l, lo, hi, None) ==> Fine(code, l, lo, hi2, cont)
    ensures Fine(code, l, lo, hi, cont) ==> Fine(code, l, lo, hi2, cont)
  {
  }

  // ----- code shapes -----

  lemma IfFine(n: nat, cc: Snippet, ct: Snippet, ce: Snippet, l: Label, n1: nat, n2: nat, n3: nat, cont: Option<Label>, cont2: Option<Label>)
    requires Fine(cc, l, n, n1, None) && Fine(ct, l, n1, n2, cont) && Fine(ce, l, n2, n3, cont2)
    requires 0 < n <= n1 <= n2 <= n3 && Known(cont, n - 1) && (cont2.Some? ==> cont2 == cont)
    ensures Fine(IfCode(n, cc, ct, ce), l, n - 1, n3, cont)
  {
    hide Count, Open, Abs;
    var fl, el := L(IfElse, n), L(IfEnd, n);
    Join6(cc, [Op(JumpIfFalse(fl)), Op(PopTop)], ct, [Op(JumpAbsolute(el)), Lab(fl), Op(PopTop)],
          ce, [Op(JumpAbsolute(el)), Lab(el)], l);
    Lit2(Op(JumpIfFalse(fl)), Op(PopTop), l);
    Lit3(Op(JumpAbsolute(el)), Lab(fl), Op(PopTop), l);
    Lit2(Op(JumpAbsolute(el)), Lab(el), l);
  }

  lemma WhileFine(n: nat, cc: Snippet, cb: Snippet, ce: Option<Snippet>, l: Label, n1: nat, n2: nat, n3: nat, cont2: Option<Label>)
    requires Fine(cc, l, n, n1, None) && Fine(cb, l, n1, n2, Some(L(WhileTop, n)))
    requires ce.Some? ==> Fine(ce.value, l, n2, n3, cont2)
    requires 0 < n <= n1 <= n2 <= n3 && (cont2.Some? ==> cont2.value == L(WhileTop, n))
    ensures Fine(WhileCode(n, cc, cb, ce), l, n - 1, n3, None)
  {
    hide Count, Open, Abs, WhileElseCode;
    var setup := Op(if ce.Some? then SetupElseLoop(L(WhileEnd, n), L(WhileElse, n)) else SetupLoop(L(WhileEnd, n)));
    var s1 := if ce.Some? then [Op(JumpIfFirstFalse(L(WhilePreElse, n)))] else [];
    var s2, s3 := [Op(JumpIfFalse(L(WhilePreEnd, n))), Op(PopTop)], [Op(JumpAbsolute(L(WhileTop, n)))];
    var s4 := [Lab(L(WhilePreEnd, n)), Op(PopTop), Lab(L(WhileEnd, n)), Op(PopBlock)];
    Join6([setup, Lab(L(WhileTop, n))], cc, s1, s2 + cb + s3, WhileElseCode(n, ce), s4, l);
    Join3(s2, cb, s3, l);
    Lit0(l);
    Lit1(Op(JumpIfFirstFalse(L(WhilePreElse, n))), l);
    Lit1(Op(JumpAbsolute(L(WhileTop, n))), l);
    Lit2(setup, Lab(L(WhileTop, n)), l);
    Lit2(Op(JumpIfFalse(L(WhilePreEnd, n))), Op(PopTop), l);
    Lit4(Lab(L(WhilePreEnd, n)), Op(PopTop), Lab(L(WhileEnd, n)), Op(PopBlock), l);
    if ce.Some? { WhileElseFine(n, ce.value, l); } else { NoWhileElse(n, l); }
  }

  lemma NoWhileElse(n: nat, l: Label)
    ensures Without(WhileElseCode(n, None), l)
  {
  }

  lemma WhileElseFine(n: nat, e: Snippet, l: Label)
    ensures var c := WhileElseCode(n, Some(e));
            && Count(c, l) == Count(e, l) + (if l == L(WhilePreElse, n) || l == L(WhileElse, n) then 1 else 0)
            && (Open(c, l) <==> Open(e, l)) && (Abs(c, l) <==> Abs(e, l) || l == L(WhileEnd, n))
  {
    hide Count, Open, Abs;
    Join3([Lab(L(WhilePreElse, n)), Op(PopTop), Lab(L(WhileElse, n))], e, [Op(JumpAbsolute(L(WhileEnd, n)))], l);
    Lit3(Lab(L(WhilePreElse, n)), Op(PopTop), Lab(L(WhileElse, n)), l);
    Lit1(Op(JumpAbsolute(L(WhileEnd, n))), l);
  }

  lemma DoFine(n: nat, cb: Snippet, cc: Snippet, l: Label, n1: nat, n2: nat)
    requires Fine(cb, l, n, n1, Some(L(DoCmp, n))) && Fine(cc, l, n1, n2, None) && 0 < n <= n1 <= n2
    ensures Fine(DoCode(n, cb, cc), l, n - 1, n2, None)
  {
    hide Count, Open, Abs;
    Join5([Op(SetupLoop(L(DoEnd, n))), Lab(L(DoTop, n))], cb, [Lab(L(DoCmp, n))], cc,
          [Op(JumpIfFalse(L(DoPreEnd, n))), Op(PopTop), Op(JumpAbsolute(L(DoTop, n))),
           Lab(L(DoPreEnd, n)), Op(PopTop), Lab(L(DoEnd, n)), Op(PopBlock)], l);
    Lit2(Op(SetupLoop(L(DoEnd, n))), Lab(L(DoTop, n)), l);
    Lit1(Lab(L(DoCmp, n)), l);
    Lit7(Op(JumpIfFalse(L(DoPreEnd, n))), Op(PopTop), Op(JumpAbsolute(L(DoTop, n))),
         Lab(L(DoPreEnd, n)), Op(PopTop), Lab(L(DoEnd, n)), Op(PopBlock), l);
  }

  lemma ForFine(n: nat, ci: Snippet, cc: Snippet, cb: Snippet, cs: Snippet, l: Label, n1: nat, n2: nat, n3: nat, n4: nat, cont2: Option<Label>)
    requires Fine(ci, l, n, n1, None) && Fine(cc, l, n1, n2, None) && Fine(cb, l, n2, n3, Some(L(ForIncdec, n)))
    requires Fine(cs, l, n3, n4, cont2) && (cont2.Some? ==> cont2.value == L(ForIncdec, n)) && 0 < n <= n1 <= n2 <= n3 <= n4
    ensures Fine(ForCode(n, ci, cc, cb, cs), l, n - 1, n4, None)
  {
    hide Count, Open, Abs;
    var s1 := [Op(SetupLoop(L(ForEnd, n))), Lab(L(ForTest, n))];
    Join7([Lab(L(ForInit, n))] + ci + s1, cc, [Op(JumpIfFalse(L(ForPreEnd, n))), Op(PopTop)], cb, [Lab(L(ForIncdec, n))], cs,
          [Op(JumpAbsolute(L(ForTest, n))), Lab(L(ForPreEnd, n)), Op(PopTop), Lab(L(ForEnd, n)), Op(PopBlock)], l);
    Join3([Lab(L(ForInit, n))], ci, s1, l);
    Lit1(Lab(L(ForInit, n)), l);
    Lit2(Op(SetupLoop(L(ForEnd, n))), Lab(L(ForTest, n)), l);
    Lit2(Op(JumpIfFalse(L(ForPreEnd, n))), Op(PopTop), l);
    Lit1(Lab(L(ForIncdec, n)), l);
    Lit5(Op(JumpAbsolute(L(ForTest, n))), Lab(L(ForPreEnd, n)), Op(PopTop), Lab(L(ForEnd, n)), Op(PopBlock), l);
  }

  // ----- cases -----

  /** Label l in the code of `count` cases, numbered from i on, of switch number own.  The only labels
      that are still missing are those of the next case. */
  predicate CasesOk(code: Snippet, l: Label, i: nat, count: nat, own: nat, lo: nat, hi: nat, defaults: nat) {
    && (l.num == own ==>
          Count(code, l) ==
            if l.kind == CasePre || l.kind == CaseTest || l.kind == CaseBody then (if i <= l.sub < i + count then 1 else 0)
            else if l == L(SwitchDefault, own) then defaults
            else 0)
    && (l.num != own ==> Count(code, l) <= 1 && (Count(code, l) > 0 ==> lo < l.num <= hi))
    && (Open(code, l) ==> count > 0 && l == Label(CasePre, own, i + count))
    && (Abs(code, l) ==> Count(code, l) == 1 || (count > 0 && (l == Label(CasePre, own, i + count) || l == Label(CaseBody, own, i + count))))
  }

  lemma CaseOk(n: nat, i: nat, test: Option<Snippet>, cb: Snippet, l: Label, lo: nat, n1: nat, n2: nat)
    requires test.Some? ==> Fine(test.value, l, lo, n1, None)
    requires Fine(cb, l, n1, n2, None) && n <= lo <= n1 <= n2
    ensures CasesOk(CaseCode(n, i, test, cb), l, i, 1, n, lo, n2, if test.None? then 1 else 0)
  {
    hide Count, Open, Abs;
    var next := [Op(JumpAbsolute(Label(CaseBody, n, i + 1)))];
    Lit0(l);
    Lit1(Lab(Label(CaseBody, n, i)), l);
    Lit1(next[0], l);
    Lit1(Lab(Label(CasePre, n, i)), l);
    Lit1(Lab(Label(CaseTest, n, i)), l);
    if test.Some? {
      var pop := if i > 0 then [Op(PopTop)] else [];
      var rest := [Op(Compare(Eq)), Op(JumpIfFalse(Label(CasePre, n, i + 1))), Op(PopTop)];
      Join5(CaseEntry(n, i, true), [Op(DupTop)] + test.value + rest, [Lab(Label(CaseBody, n, i))], cb, next, l);
      Join3([Op(DupTop)], test.value, rest, l);
      Join3([Lab(Label(CasePre, n, i))], pop, [Lab(Label(CaseTest, n, i))], l);
      Lit1(Op(PopTop), l);
      Lit1(Op(DupTop), l);
      Lit3(Op(Compare(Eq)), Op(JumpIfFalse(Label(CasePre, n, i + 1))), Op(PopTop), l);
    } else {
      var dup := if i == 0 then [Op(DupTop)] else [];
      var skip := [Op(JumpAbsolute(Label(CasePre, n, i + 1))), Lab(Label(CaseTest, n, i))];
      Join5(CaseEntry(n, i, false), [Lab(L(SwitchDefault, n))], [Lab(Label(CaseBody, n, i))], cb, next, l);
      Join3([Lab(Label(CasePre, n, i))], dup, skip, l);
      Lit1(Op(DupTop), l);
      Lit1(Lab(L(SwitchDefault, n)), l);
      Lit2(skip[0], skip[1], l);
    }
  }

  lemma CasesJoin(a: Snippet, b: Snippet, l: Label, i: nat, count: nat, own: nat, lo: nat, n1: nat, hi: nat, d1: nat, d2: nat)
    requires CasesOk(a, l, i, 1, own, lo, n1, d1) && CasesOk(b, l, i + 1, count, own, n1, hi, d2) && own <= lo <= n1 <= hi && d1 + d2 <= 1
    ensures CasesOk(a + b, l, i, count + 1, own, lo, hi, d1 + d2)
  {
    hide Count, Open, Abs;
    Join2(a, b, l);
  }

  lemma SwitchFine(n: nat, ce: Snippet, cc: Snippet, count: nat, defaults: nat, l: Label, n1: nat, n2: nat)
    requires Fine(ce, l, n, n1, None) && CasesOk(cc, l, 0, count, n, n1, n2, defaults)
    requires 0 < n <= n1 <= n2 && 0 < count && defaults <= 1
    ensures Fine(SwitchCode(n, ce, cc, count, defaults), l, n - 1, n2, None)
  {
    hide Count, Open, Abs;
    var s1 := [Lab(Label(CasePre, n, count)), Op(PopTop), Op(JumpAbsolute(L(SwitchDefault, n))),
               Lab(Label(CaseTest, n, count)), Lab(Label(CaseBody, n, count))];
    var s2 := if defaults == 0 then [Lab(L(SwitchDefault, n))] else [];
    var setup := Op(SetupElseLoop(L(SwitchEnd, n), L(SwitchDefault, n)));
    Join6(ce, [Lab(L(SwitchBegin, n)), setup], cc, s1, s2, [Lab(L(SwitchEnd, n)), Op(PopBlock), Op(PopTop)], l);
    Lit0(l);
    Lit1(Lab(L(SwitchDefault, n)), l);
    Lit2(Lab(L(SwitchBegin, n)), setup, l);
    Lit3(Lab(L(SwitchEnd, n)), Op(PopBlock), Op(PopTop), l);
    Lit5(s1[0], s1[1], s1[2], s1[3], s1[4], l);
  }

  // ----- catches -----

  /** Label l in the code of `count` catches, numbered from i on, of try number own.  The only label
      that is still missing is that of the finally part. */
  predicate CatchesOk(code: Snippet, l: Label, i: nat, count: nat, own: nat, lo: nat, hi: nat, cont: Option<Label>) {
    && (l.num == own ==>
          Count(code, l) == if (l.kind == TryMatch || l.kind == TryNoMatch) && i <= l.sub < i + count then 1 else 0)
    && (l.num != own ==> Count(code, l) <= 1 && (Count(code, l) > 0 ==> lo < l.num <= hi))
    && (Open(code, l) ==> l == L(TryFinally, own))
    && (Abs(code, l) ==> Count(code, l) == 1 || cont == Some(l))
  }

  lemma CatchOk(n: nat, i: nat, classId: Id, id: Id, cb: Snippet, l: Label, lo: nat, n1: nat, cont: Option<Label>)
    requires Fine(cb, l, lo, n1, cont) && 0 < n <= lo <= n1 && Known(cont, n - 1)
    ensures CatchesOk(CatchCode(n, i, classId, id, cb), l, i, 1, n, lo, n1, cont)
  {
    hide Count, Open, Abs;
    var nm := Label(TryNoMatch, n, i);
    var s0 := if i != 0 then [Op(PopTop)] else [];
    Join4(s0, [Op(DupTop), Op(LoadId(classId)), Op(CompareEx), Op(JumpIfFalse(nm)), Op(PopTop), Op(StoreId(id)), Lab(Label(TryMatch, n, i))],
          cb, [Op(JumpForward(L(TryFinally, n))), Lab(nm)], l);
    Lit0(l);
    Lit1(Op(PopTop), l);
    Lit2(Op(JumpForward(L(TryFinally, n))), Lab(nm), l);
    Lit7(Op(DupTop), Op(LoadId(classId)), Op(CompareEx), Op(JumpIfFalse(nm)), Op(PopTop), Op(StoreId(id)), Lab(Label(TryMatch, n, i)), l);
  }

  lemma CatchesJoin(a: Snippet, b: Snippet, l: Label, i: nat, count: nat, own: nat, lo: nat, n1: nat, hi: nat,
                    cont: Option<Label>, cont2: Option<Label>)
    requires CatchesOk(a, l, i, 1, own, lo, n1, cont) && CatchesOk(b, l, i + 1, count, own, n1, hi, cont2)
    requires own <= lo <= n1 <= hi && Known(cont, lo) && (cont2.Some? ==> cont2 == cont)
    ensures CatchesOk(a + b, l, i, count + 1, own, lo, hi, cont)
  {
    hide Count, Open, Abs;
    Join2(a, b, l);
  }

  lemma TryFine(n: nat, cb: Snippet, ch: Snippet, count: nat, cf: Snippet, l: Label, n1: nat, n2: nat, n3: nat,
                cont: Option<Label>, cont2: Option<Label>, cont3: Option<Label>)
    requires Fine(cb, l, n, n1, cont) && CatchesOk(ch, l, 0, count, n, n1, n2, cont2) && Fine(cf, l, n2, n3, cont3)
    requires 0 < n <= n1 <= n2 <= n3 && Known(cont, n - 1) && (cont2.Some? ==> cont2 == cont) && (cont3.Some? ==> cont3 == cont)
    ensures Fine(TryCode(n, cb, ch, cf), l, n - 1, n3, cont)
  {
    hide Count, Open, Abs;
    var jump := Op(JumpForward(L(TryFinally, n)));
    var setup := Op(SetupExcept(L(TryCatch, n), L(TryFinally, n), L(TryEndFinally, n)));
    Join7([setup], cb, [jump, Lab(L(TryCatch, n))], ch, [Op(PopTop), jump, Lab(L(TryFinally, n))], cf,
          [Lab(L(TryEndFinally, n)), Op(EndFinally)], l);
    Lit1(setup, l);
    Lit2(jump, Lab(L(TryCatch, n)), l);
    Lit3(Op(PopTop), jump, Lab(L(TryFinally, n)), l);
    Lit2(Lab(L(TryEndFinally, n)), Op(EndFinally), l);
  }

  // ----- statements -----

  lemma {:induction false} StmtFine(s: Stmt, n: nat, cont: Option<Label>, l: Label)
    requires WellFormed(s, cont.Some?) && Known(cont, n)
    ensures Fine(EmitStmt(s, n, cont), l, n, n + StmtCount(s), cont)
    decreases s, 4
  {
    hide Count, Open, Abs, Fine;
    if s.Group? {
      StmtsFine(s.items, n, cont, l);
    } else if s.If? {
      IfStmtFine(s, n, cont, l);
    } else if s.While? || s.Do? || s.For? || s.Switch? {
      if s.While? { WhileStmtFine(s, n, l); }
      if s.Do? { DoStmtFine(s, n, l); }
      if s.For? { ForStmtFine(s, n, l); }
      if s.Switch? { SwitchStmtFine(s, n, l); }
      FineMore(EmitStmt(s, n, cont), l, n, n + StmtCount(s), n + StmtCount(s), cont);
    } else if s.Try? {
      TryStmtFine(s, n, cont, l);
    } else {
      SimpleFine(s, n, cont, l);
    }
  }

  lemma SimpleFine(s: Stmt, n: nat, cont: Option<Label>, l: Label)
    requires s.Nop? || s.Let? || s.Break? || s.BreakElse? || s.Continue? || s.Throw? || s.Return?
    requires WellFormed(s, cont.Some?) && Known(cont, n)
    ensures Fine(EmitStmt(s, n, cont), l, n, n + StmtCount(s), cont)
  {
    hide Count, Open, Abs, EmitExpr, EmitAssign, ExprCount, AssignCount;
    Lit0(l);
    if s.Let? {
      AssignFine(s.a, n, 0, l);
    } else if s.Throw? || s.Return? {
      var last := Op(if s.Throw? then Instr.Throw else Instr.Return);
      ExprFine(s.e, n, l);
      Join2(EmitExpr(s.e, n), [last], l);
      Lit1(last, l);
    } else if !s.Nop? {
      Lit1(EmitStmt(s, n, cont)[0], l);
    }
  }

  lemma {:induction false} StmtsFine(items: seq<Stmt>, n: nat, cont: Option<Label>, l: Label)
    requires WellFormedItems(items, cont.Some?) && Known(cont, n)
    ensures Fine(EmitStmts(items, n, cont), l, n, n + StmtsCount(items), cont)
    decreases items, 0
  {
    hide Count, Open, Abs, EmitStmt, StmtCount, WellFormed, Drift;
    Lit0(l);
    if items != [] {
      var n1, cont2 := n + StmtCount(items[0]), Kept(cont, Drift(items[0]));
      StmtFine(items[0], n, cont, l);
      StmtsFine(items[1..], n1, cont2, l);
      Join2(EmitStmt(items[0], n, cont), EmitStmts(items[1..], n1, cont2), l);
    }
  }

  lemma {:induction false} IfStmtFine(s: Stmt, n: nat, cont: Option<Label>, l: Label)
    requires s.If? && WellFormed(s, cont.Some?) && Known(cont, n)
    ensures Fine(EmitStmt(s, n, cont), l, n, n + StmtCount(s), cont)
    decreases s, 3
  {
    hide Count, Open, Abs, IfCode, EmitExpr, ExprCount;
    var n1 := n + 1 + ExprCount(s.cond);
    var n2, cont2 := n1 + StmtCount(s.thn), Kept(cont, Drift(s.thn));
    var ce := if s.els.Some? then EmitStmt(s.els.value, n2, cont2) else [];
    ExprFine(s.cond, n + 1, l);
    StmtFine(s.thn, n1, cont, l);
    Lit0(l);
    if s.els.Some? { StmtFine(s.els.value, n2, cont2, l); }
    IfFine(n + 1, EmitExpr(s.cond, n + 1), EmitStmt(s.thn, n1, cont), ce, l, n1, n2, n + StmtCount(s), cont, cont2);
  }

  lemma {:induction false} WhileStmtFine(s: Stmt, n: nat, l: Label)
    requires s.While? && WellFormed(s, false)
    ensures Fine(EmitStmt(s, n, None), l, n, n + StmtCount(s), None)
    decreases s, 3
  {
    hide Count, Open, Abs, Fine, WhileCode, EmitExpr, ExprCount;
    var n1, here := n + 1 + ExprCount(s.cond), Some(L(WhileTop, n + 1));
    var n2, cont2 := n1 + StmtCount(s.body), Kept(here, Drift(s.body));
    ExprFine(s.cond, n + 1, l);
    StmtFine(s.body, n1, here, l);
    if s.els.Some? { StmtFine(s.els.value, n2, cont2, l); }
    WhileFine(n + 1, EmitExpr(s.cond, n + 1), EmitStmt(s.body, n1, here),
              if s.els.Some? then Some(EmitStmt(s.els.value, n2, cont2)) else None, l, n1, n2, n + StmtCount(s), cont2);
  }

  lemma {:induction false} DoStmtFine(s: Stmt, n: nat, l: Label)
    requires s.Do? && WellFormed(s, false)
    ensures Fine(EmitStmt(s, n, None), l, n, n + StmtCount(s), None)
    decreases s, 3
  {
    hide Count, Open, Abs, Fine, DoCode, EmitExpr, ExprCount;
    var n1, here := n + 1 + StmtCount(s.body), Some(L(DoCmp, n + 1));
    StmtFine(s.body, n + 1, here, l);
    ExprFine(s.cond, n1, l);
    DoFine(n + 1, EmitStmt(s.body, n + 1, here), EmitExpr(s.cond, n1), l, n1, n + StmtCount(s));
  }

  lemma {:induction false} ForStmtFine(s: Stmt, n: nat, l: Label)
    requires s.For? && WellFormed(s, false)
    ensures Fine(EmitStmt(s, n, None), l, n, n + StmtCount(s), None)
    decreases s, 3
  {
    hide Count, Open, Abs, Fine, ForCode, EmitExpr, EmitAssign, ExprCount, AssignCount;
    var n1, here := n + 1 + InitCount(s.init), Some(L(ForIncdec, n + 1));
    var n2 := n1 + ExprCount(s.cond);
    var n3, cont2 := n2 + StmtCount(s.body), Kept(here, Drift(s.body));
    InitFine(s.init, n + 1, l);
    ExprFine(s.cond, n1, l);
    StmtFine(s.body, n2, here, l);
    StmtFine(s.step, n3, cont2, l);
    ForFine(n + 1, EmitInit(s.init, n + 1), EmitExpr(s.cond, n1), EmitStmt(s.body, n2, here), EmitStmt(s.step, n3, cont2),
            l, n1, n2, n3, n + StmtCount(s), cont2);
  }

  lemma InitFine(i: Option<Assign>, n: nat, l: Label)
    ensures Fine(EmitInit(i, n), l, n, n + InitCount(i), None)
  {
    Lit0(l);
    if i.Some? { AssignFine(i.value, n, 0, l); }
  }

  lemma {:induction false} SwitchStmtFine(s: Stmt, n: nat, l: Label)
    requires s.Switch? && WellFormed(s, false)
    ensures Fine(EmitStmt(s, n, None), l, n, n + StmtCount(s), None)
    decreases s, 3
  {
    hide Count, Open, Abs, Fine, SwitchCode, EmitExpr, ExprCount, EmitCases, CasesCount;
    var n1 := n + 1 + ExprCount(s.subject);
    ExprFine(s.subject, n + 1, l);
    CasesFine(s.cases, 0, n + 1, n1, l);
    SwitchFine(n + 1, EmitExpr(s.subject, n + 1), EmitCases(s.cases, 0, n + 1, n1), |s.cases|, Defaults(s.cases), l, n1, n + StmtCount(s));
  }

  lemma {:induction false} CasesFine(cases: seq<Case>, i: nat, own: nat, n: nat, l: Label)
    requires WellFormedCases(cases) && Defaults(cases) <= 1 && own <= n
    ensures CasesOk(EmitCases(cases, i, own, n), l, i, |cases|, own, n, n + CasesCount(cases), Defaults(cases))
    decreases cases, 5
  {
    hide Count, Open, Abs, EmitExpr, EmitStmt, CaseCode, StmtCount, ExprCount, WellFormed;
    Lit0(l);
    if cases != [] {
      var c := cases[0];
      assert c.body < c;
      var n1 := n + (if c.test.Some? then ExprCount(c.test.value) else 0);
      var n2 := n1 + StmtCount(c.body);
      if c.test.Some? { ExprFine(c.test.value, n, l); }
      StmtFine(c.body, n1, None, l);
      CaseOk(own, i, if c.test.Some? then Some(EmitExpr(c.test.value, n)) else None, EmitStmt(c.body, n1, None), l, n, n1, n2);
      CasesFine(cases[1..], i + 1, own, n2, l);
      CasesJoin(EmitCase(c, i, own, n), EmitCases(cases[1..], i + 1, own, n2), l, i, |cases| - 1, own, n, n2, n + CasesCount(cases),
                if c.test.None? then 1 else 0, Defaults(cases[1..]));
    }
  }

  lemma {:induction false} TryStmtFine(s: Stmt, n: nat, cont: Option<Label>, l: Label)
    requires s.Try? && WellFormed(s, cont.Some?) && Known(cont, n)
    ensures Fine(EmitStmt(s, n, cont), l, n, n + StmtCount(s), cont)
    decreases s, 3
  {
    hide Count, Open, Abs, Fine, TryCode, EmitCatches, CatchesCount, ExprCount, EmitExpr, EmitItems, EmitAssign;
    var n1 := n + 1 + StmtCount(s.body);
    var n2 := n1 + CatchesCount(s.catches);
    var cont2, cont3 := Kept(cont, Drift(s.body)), Kept(cont, Drift(s.body) + DriftCatches(s.catches));
    StmtFine(s.body, n + 1, cont, l);
    CatchesFine(s.catches, 0, n + 1, n1, cont2, l);
    StmtFine(s.fin, n2, cont3, l);
    TryFine(n + 1, EmitStmt(s.body, n + 1, cont), EmitCatches(s.catches, 0, n + 1, n1, cont2), |s.catches|, EmitStmt(s.fin, n2, cont3),
            l, n1, n2, n + StmtCount(s), cont, cont2, cont3);
  }

  lemma {:induction false} CatchesFine(catches: seq<Catch>, i: nat, own: nat, n: nat, cont: Option<Label>, l: Label)
    requires WellFormedCatches(catches, cont.Some?) && 0 < own <= n && Known(cont, own - 1)
    ensures CatchesOk(EmitCatches(catches, i, own, n, cont), l, i, |catches|, own, n, n + CatchesCount(catches), cont)
    decreases catches, 0
  {
    hide Count, Open, Abs, EmitStmt, CatchCode, StmtCount, WellFormed;
    Lit0(l);
    if catches != [] {
      var h := catches[0];
      var n1, cont2 := n + StmtCount(h.body), Kept(cont, Drift(h.body));
      StmtFine(h.body, n, cont, l);
      CatchOk(own, i, h.classId, h.id, EmitStmt(h.body, n, cont), l, n, n1, cont);
      CatchesFine(catches[1..], i + 1, own, n1, cont2, l);
      CatchesJoin(CatchCode(own, i, h.classId, h.id, EmitStmt(h.body, n, cont)), EmitCatches(catches[1..], i + 1, own, n1, cont2), l, i,
                  |catches| - 1, own, n, n1, n + CatchesCount(catches), cont, cont2);
    }
  }
}
