/** Programs at which the compiler or the machine does not do what one would expect. */
module Witnesses {
  import opened Values
  import opened Syntax
  import opened Semantics

  const Yes := Const(Bool(true))
  const One := Const(Num(1))

  /** A return out of a loop hangs. */
  lemma ReturnInLoop(w: World, vars: Vars, fuel: nat)
    ensures Exec(w, While(Yes, Stmt.Return(One), None), vars, fuel) == Hang
  {
    var s := While(Yes, Stmt.Return(One), None);
    assert WhileRound(w, s, vars, fuel) == Hang;
    assert LoopWhile(w, s, vars, false, fuel) == Hang;
  }

  /** So does a break out of a loop, across a try. */
  lemma BreakAcrossTry(w: World, vars: Vars, fuel: nat)
    ensures Exec(w, While(Yes, Try(Break, [Catch("c", "e", Nop)], Nop), None), vars, fuel) == Hang
  {
    var t := Try(Break, [Catch("c", "e", Nop)], Nop);
    var s := While(Yes, t, None);
    assert Concluded(w, t, Broke(vars), fuel) == Hang;
    assert Exec(w, t, vars, fuel) == Hang;
    assert WhileRound(w, s, vars, fuel) == Hang;
    assert LoopWhile(w, s, vars, false, fuel) == Hang;
  }

  /** So does an instance of a built-in exception class that no catch takes. */
  lemma UncaughtInTry(w: World, x: Value, c: Value, fuel: nat)
    requires x.Exc? && w.throwable(x) && !w.isInstance(x, c)
    ensures var vars := map["x" := x, "c" := c];
            Exec(w, Try(Stmt.Throw(Name("x")), [Catch("c", "e", Nop)], Nop), vars, fuel) == Hang
  {
    var vars, s := map["x" := x, "c" := c], Try(Stmt.Throw(Name("x")), [Catch("c", "e", Nop)], Nop);
    assert Finish(w, s, vars, Unmatched(x), fuel) == Hang;
    assert Handle(w, s, 1, vars, x, fuel) == Hang;
    assert Handle(w, s, 0, vars, x, fuel) == Hang;
  }

  /** Without any catch it is forgotten. */
  lemma ForgottenException(w: World, x: Value, fuel: nat)
    requires x.Exc? && w.throwable(x)
    ensures Exec(w, Try(Stmt.Throw(Name("x")), [], Nop), map["x" := x], fuel) == Normal(map["x" := x])
  {
    var vars, s := map["x" := x], Try(Stmt.Throw(Name("x")), [], Nop);
    assert Finish(w, s, vars, Nothing, fuel) == Normal(vars);
    assert Handle(w, s, 0, vars, x, fuel) == Normal(vars);
  }

  /** A handler that throws what it has caught runs for ever: the exception goes to the same catch again. */
  lemma {:induction false} HandlerCatchesItself(w: World, x: Value, c: Value, fuel: nat)
    requires x.Exc? && w.throwable(x) && w.isInstance(x, c)
    ensures var s := Try(Stmt.Throw(Name("x")), [Catch("c", "x", Stmt.Throw(Name("x")))], Nop);
            Exec(w, s, map["x" := x, "c" := c], fuel) == Timeout
  {
    var s := Try(Stmt.Throw(Name("x")), [Catch("c", "x", Stmt.Throw(Name("x")))], Nop);
    HandlerAgain(w, s, x, c, fuel);
  }

  lemma {:induction false} HandlerAgain(w: World, s: Stmt, x: Value, c: Value, fuel: nat)
    requires x.Exc? && w.throwable(x) && w.isInstance(x, c)
    requires s == Try(Stmt.Throw(Name("x")), [Catch("c", "x", Stmt.Throw(Name("x")))], Nop)
    ensures Handle(w, s, 0, map["x" := x, "c" := c], x, fuel) == Timeout
  {
    var vars := map["x" := x, "c" := c];
    assert vars["x" := x] == vars;
    assert Exec(w, s.catches[0].body, vars, fuel) == Threw(vars, x);
    if fuel > 0 { HandlerAgain(w, s, x, c, fuel - 1); }
    assert Rethrow(w, s, Threw(vars, x), fuel) == Timeout;
    assert Handled(w, s, 0, vars, fuel) == Timeout;
  }

  /** A return through two tries runs the inner finally part only. */
  lemma OuterFinallySkipped(w: World, vars: Vars, fuel: nat)
    ensures var inner := Try(Stmt.Return(One), [Catch("c", "e", Nop)], Let(Assign(None, Name("y"), Plain(One))));
            var outer := Try(inner, [Catch("c", "e", Nop)], Let(Assign(None, Name("z"), Plain(One))));
            Exec(w, outer, vars, fuel) == Leave(vars["y" := Num(1)], Num(1))
  {
    var inner := Try(Stmt.Return(One), [Catch("c", "e", Nop)], Let(Assign(None, Name("y"), Plain(One))));
    var outer := Try(inner, [Catch("c", "e", Nop)], Let(Assign(None, Name("z"), Plain(One))));
    var last := vars["y" := Num(1)];
    assert Exec(w, inner.fin, vars, fuel) == Normal(last);
    assert Finish(w, inner, vars, Returning(Num(1)), fuel) == Ended(w, inner, last, Returning(Num(1)), fuel);
    assert Concluded(w, inner, Returned(vars, Num(1)), fuel) == Leave(last, Num(1));
    assert Exec(w, inner, vars, fuel) == Leave(last, Num(1));
    assert Concluded(w, outer, Leave(last, Num(1)), fuel) == Leave(last, Num(1));
  }

  /** A loop without a step has its body where the step belongs.  `continue` in it starts the body again without
      a test, so this one never ends, although its condition is false after the first round. */
  lemma ContinueSkipsTest(w: World, fuel: nat)
    ensures Exec(w, NoStep(), map["x" := Bool(true)], fuel) == Timeout
  {
    var vars, s := map["x" := Bool(true)], NoStep();
    SkipsAgain(w, vars, fuel);
    assert Exec(w, s.body, vars, fuel) == Normal(vars);
    assert ForRound(w, s, vars, fuel) == Timeout;
    assert LoopFor(w, s, vars, fuel) == Timeout;
  }

  /** for (; x; ) { x = false; continue; } */
  function NoStep(): Stmt {
    For(None, Name("x"), Group([Let(Assign(None, Name("x"), Plain(Const(Bool(false))))), Continue]), Nop)
  }

  lemma {:induction false} SkipsAgain(w: World, vars: Vars, fuel: nat)
    ensures ForStep(w, NoStep(), vars, fuel) == Timeout
    decreases fuel
  {
    var s, later := NoStep(), vars["x" := Bool(false)];
    var items := s.step.items;
    assert Exec(w, items[0], vars, fuel) == Normal(later);
    assert ExecItems(w, items[1..], later, fuel) == Continued(later) by { assert items[1..][0] == Continue; }
    assert Exec(w, s.step, vars, fuel) == Continued(later);
    if fuel > 0 { SkipsAgain(w, later, fuel - 1); }
  }
}
