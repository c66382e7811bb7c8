/** Fuel does not change what a program means: an outcome that is reached with some fuel is reached with
    any more. */
module Fuel {
  import opened Values
  import opened Syntax
  import opened Semantics

  lemma {:induction false} MoreFuel(w: World, s: Stmt, vars: Vars, f: nat, g: nat)
    requires f <= g && !Exec(w, s, vars, f).Timeout?
    ensures Exec(w, s, vars, g) == Exec(w, s, vars, f)
    decreases f, s, 3, 0
  {
    hide ExecItems, LoopWhile, LoopDo, LoopFor, Select, Handle, Concluded, Eval, ExecAssign;
    match s
    case Group(items) => MoreItems(w, items, vars, f, g);
    case If(c, t, e) =>
      var r := Eval(w, c, vars);
      if r.Ok? && Truth(w, r.v) {
        MoreFuel(w, t, vars, f, g);
      } else if r.Ok? && e.Some? {
        MoreFuel(w, e.value, vars, f, g);
      }
    case While(_, _, _) => MoreWhile(w, s, vars, false, f, g);
    case Do(_, _) => MoreDo(w, s, vars, f, g);
    case For(init, _, _, _) =>
      if init.None? {
        MoreFor(w, s, vars, f, g);
      } else if ExecAssign(w, init.value, vars).r.Ok? {
        MoreFor(w, s, ExecAssign(w, init.value, vars).vars, f, g);
      }
    case Switch(e, _) =>
      var r := Eval(w, e, vars);
      if r.Ok? { MoreSelect(w, s, 0, r.v, vars, f, g); }
    case Try(b, _, _) =>
      if Exec(w, b, vars, f).Timeout? {
        OutOfFuel(w, s, vars, f);
      } else {
        MoreFuel(w, b, vars, f, g);
        var o := Exec(w, b, vars, f);
        if o.Threw? { MoreHandle(w, s, 0, o.vars, o.x, f, g); } else { MoreConcluded(w, s, o, f, g); }
      }
    case _ =>
  }

  /** A try whose block runs out of fuel runs out of fuel itself. */
  lemma OutOfFuel(w: World, s: Stmt, vars: Vars, f: nat)
    requires s.Try? && Exec(w, s.body, vars, f).Timeout?
    ensures Exec(w, s, vars, f).Timeout?
  {
  }

  lemma {:induction false} MoreItems(w: World, items: seq<Stmt>, vars: Vars, f: nat, g: nat)
    requires f <= g && !ExecItems(w, items, vars, f).Timeout?
    ensures ExecItems(w, items, vars, g) == ExecItems(w, items, vars, f)
    decreases f, items, 2, 0
  {
    hide Exec;
    if items != [] {
      MoreFuel(w, items[0], vars, f, g);
      var o := Exec(w, items[0], vars, f);
      if o.Normal? { MoreItems(w, items[1..], o.vars, f, g); }
    }
  }

  // ----- loops -----

  lemma {:induction false} MoreWhile(w: World, s: Stmt, vars: Vars, visited: bool, f: nat, g: nat)
    requires s.While? && f <= g && !LoopWhile(w, s, vars, visited, f).Timeout?
    ensures LoopWhile(w, s, vars, visited, g) == LoopWhile(w, s, vars, visited, f)
    decreases f, s, 2, 1
  {
    hide WhileRound, ElsePart, Eval;
    var r := Eval(w, s.cond, vars);
    if r.Ok? {
      if Truth(w, r.v) { MoreRound(w, s, vars, f, g); } else if s.els.Some? && !visited { MoreElse(w, s, vars, f, g); }
    }
  }

  lemma {:induction false} MoreRound(w: World, s: Stmt, vars: Vars, f: nat, g: nat)
    requires s.While? && f <= g && !WhileRound(w, s, vars, f).Timeout?
    ensures WhileRound(w, s, vars, g) == WhileRound(w, s, vars, f)
    decreases f, s, 2, 0
  {
    hide Exec, LoopWhile, ElsePart;
    MoreFuel(w, s.body, vars, f, g);
    var o := Exec(w, s.body, vars, f);
    if Again(o) {
      MoreWhile(w, s, o.vars, true, f - 1, g - 1);
    } else if o.BrokeElse? && s.els.Some? {
      MoreElse(w, s, o.vars, f, g);
    }
  }

  lemma {:induction false} MoreElse(w: World, s: Stmt, vars: Vars, f: nat, g: nat)
    requires s.While? && s.els.Some? && f <= g && !ElsePart(w, s, vars, f).Timeout?
    ensures ElsePart(w, s, vars, g) == ElsePart(w, s, vars, f)
    decreases f, s, 1, 0
  {
    hide Exec, LoopWhile;
    MoreFuel(w, s.els.value, vars, f, g);
    var o := Exec(w, s.els.value, vars, f);
    if o.Continued? {
      MoreWhile(w, s, o.vars, true, f - 1, g - 1);
    } else if o.BrokeElse? {
      MoreElse(w, s, o.vars, f - 1, g - 1);
    }
  }

  lemma {:induction false} MoreDo(w: World, s: Stmt, vars: Vars, f: nat, g: nat)
    requires s.Do? && f <= g && !LoopDo(w, s, vars, f).Timeout?
    ensures LoopDo(w, s, vars, g) == LoopDo(w, s, vars, f)
    decreases f, s, 2, 0
  {
    hide Exec, Eval;
    MoreFuel(w, s.body, vars, f, g);
    var o := Exec(w, s.body, vars, f);
    if Again(o) {
      var r := Eval(w, s.cond, o.vars);
      if r.Ok? && Truth(w, r.v) { MoreDo(w, s, o.vars, f - 1, g - 1); }
    }
  }

  lemma {:induction false} MoreFor(w: World, s: Stmt, vars: Vars, f: nat, g: nat)
    requires s.For? && f <= g && !LoopFor(w, s, vars, f).Timeout?
    ensures LoopFor(w, s, vars, g) == LoopFor(w, s, vars, f)
    decreases f, s, 2, 1
  {
    hide Exec, Eval, ForStep;
    var r := Eval(w, s.cond, vars);
    if r.Ok? && Truth(w, r.v) {
      MoreFuel(w, s.body, vars, f, g);
      var o := Exec(w, s.body, vars, f);
      if Again(o) { MoreStep(w, s, o.vars, f, g); }
    }
  }

  lemma {:induction false} MoreStep(w: World, s: Stmt, vars: Vars, f: nat, g: nat)
    requires s.For? && f <= g && !ForStep(w, s, vars, f).Timeout?
    ensures ForStep(w, s, vars, g) == ForStep(w, s, vars, f)
    decreases f, s, 1, 0
  {
    hide Exec, LoopFor;
    MoreFuel(w, s.step, vars, f, g);
    var o := Exec(w, s.step, vars, f);
    if o.Normal? {
      MoreFor(w, s, o.vars, f - 1, g - 1);
    } else if o.Continued? {
      MoreStep(w, s, o.vars, f - 1, g - 1);
    }
  }

  // ----- switch -----

  lemma {:induction false} MoreSelect(w: World, s: Stmt, i: nat, v: Value, vars: Vars, f: nat, g: nat)
    requires s.Switch? && i <= |s.cases| && f <= g && !Select(w, s, i, v, vars, f).Timeout?
    ensures Select(w, s, i, v, vars, g) == Select(w, s, i, v, vars, f)
    decreases f, s, 2, |s.cases| - i
  {
    hide Eval, FallThrough;
    if i == |s.cases| {
      MoreFall(w, s, DefaultIndex(s.cases), vars, f, g);
    } else if s.cases[i].test.None? {
      MoreSelect(w, s, i + 1, v, vars, f, g);
    } else {
      var e := Eval(w, s.cases[i].test.value, vars);
      if e.Ok? {
        var r := w.compare(Eq, e.v, v);
        if r.Ok? && Truth(w, r.v) { MoreFall(w, s, i, vars, f, g); } else if r.Ok? { MoreSelect(w, s, i + 1, v, vars, f, g); }
      }
    }
  }

  lemma {:induction false} MoreFall(w: World, s: Stmt, i: nat, vars: Vars, f: nat, g: nat)
    requires s.Switch? && i <= |s.cases| && f <= g && !FallThrough(w, s, i, vars, f).Timeout?
    ensures FallThrough(w, s, i, vars, g) == FallThrough(w, s, i, vars, f)
    decreases f, s, 1, |s.cases| - i
  {
    hide Exec;
    if i < |s.cases| {
      assert s.cases[i].body < s;
      MoreFuel(w, s.cases[i].body, vars, f, g);
      var o := Exec(w, s.cases[i].body, vars, f);
      if o.Normal? {
        MoreFall(w, s, i + 1, o.vars, f, g);
      } else if o.BrokeElse? {
        MoreFall(w, s, DefaultIndex(s.cases), o.vars, f - 1, g - 1);
      }
    }
  }

  // ----- try -----

  lemma {:induction false} MoreHandle(w: World, s: Stmt, i: nat, vars: Vars, x: Thrown, f: nat, g: nat)
    requires s.Try? && i <= |s.catches| && f <= g && !Handle(w, s, i, vars, x, f).Timeout?
    ensures Handle(w, s, i, vars, x, g) == Handle(w, s, i, vars, x, f)
    decreases f, s, 2, |s.catches| - i
  {
    hide Exec, Lookup, Finish, Rethrow, Concluded;
    if i == |s.catches| {
      MoreFinish(w, s, vars, if s.catches == [] then Nothing else Unmatched(x), f, g);
    } else {
      var h := s.catches[i];
      var c := Lookup(w, vars, h.classId);
      if !c.Ok? {
        MoreRethrow(w, s, Failure(vars, c), f, g);
      } else if !w.isInstance(x, c.v) {
        MoreHandle(w, s, i + 1, vars, x, f, g);
      } else {
        assert h.body < s;
        MoreHandled(w, s, i, vars[h.id := x], f, g);
      }
    }
  }

  lemma {:induction false} MoreHandled(w: World, s: Stmt, i: nat, vars: Vars, f: nat, g: nat)
    requires s.Try? && i < |s.catches| && f <= g && !Handled(w, s, i, vars, f).Timeout?
    ensures Handled(w, s, i, vars, g) == Handled(w, s, i, vars, f)
    decreases f, s, 1, 3
  {
    hide Exec, Rethrow, Finish;
    assert s.catches[i].body < s;
    var o := Exec(w, s.catches[i].body, vars, f);
    MoreFuel(w, s.catches[i].body, vars, f, g);
    if o.Threw? { MoreRethrow(w, s, o, f, g); } else { MoreConcluded(w, s, o, f, g); }
  }

  lemma {:induction false} MoreConcluded(w: World, s: Stmt, o: Outcome, f: nat, g: nat)
    requires s.Try? && !o.Threw? && f <= g && !Concluded(w, s, o, f).Timeout?
    ensures Concluded(w, s, o, g) == Concluded(w, s, o, f)
    decreases f, s, 1, 2
  {
    hide Finish;
    if o.Normal? {
      MoreFinish(w, s, o.vars, Nothing, f, g);
    } else if o.Returned? {
      MoreFinish(w, s, o.vars, Returning(o.v), f, g);
    }
  }

  lemma {:induction false} MoreFinish(w: World, s: Stmt, vars: Vars, p: After, f: nat, g: nat)
    requires s.Try? && f <= g && !Finish(w, s, vars, p, f).Timeout?
    ensures Finish(w, s, vars, p, g) == Finish(w, s, vars, p, f)
    decreases f, s, 1, 1
  {
    hide Exec, Rethrow;
    var o := Exec(w, s.fin, vars, f);
    if o.Timeout? {
      OutOfFinally(w, s, vars, p, f);
    } else {
      MoreFuel(w, s.fin, vars, f, g);
      if o.Normal? {
        if p.Unmatched? && !p.x.Exc? { MoreRethrow(w, s, Threw(o.vars, w.strayFinally), f, g); }
      } else if !o.Returned? {
        MoreRethrow(w, s, Across(o), f, g);
      }
    }
  }

  lemma OutOfFinally(w: World, s: Stmt, vars: Vars, p: After, f: nat)
    requires s.Try? && Exec(w, s.fin, vars, f).Timeout?
    ensures Finish(w, s, vars, p, f).Timeout?
  {
    hide Exec;
  }

  lemma {:induction false} MoreRethrow(w: World, s: Stmt, o: Outcome, f: nat, g: nat)
    requires s.Try? && Settled(o) && f <= g && !Rethrow(w, s, o, f).Timeout?
    ensures Rethrow(w, s, o, g) == Rethrow(w, s, o, f)
    decreases f, s, 0, 0
  {
    hide Handle;
    if o.Threw? { MoreHandle(w, s, 0, o.vars, o.x, f - 1, g - 1); }
  }

  // ----- meaning without fuel -----

  /** The program ends with outcome o. */
  ghost predicate Means(w: World, s: Stmt, vars: Vars, o: Outcome) {
    !o.Timeout? && exists f: nat :: Exec(w, s, vars, f) == o
  }

  /** A program has at most one meaning. */
  lemma OneMeaning(w: World, s: Stmt, vars: Vars, o: Outcome, p: Outcome)
    requires Means(w, s, vars, o) && Means(w, s, vars, p)
    ensures o == p
  {
    hide Exec;
    var f: nat :| Exec(w, s, vars, f) == o;
    var g: nat :| Exec(w, s, vars, g) == p;
    if f <= g { MoreFuel(w, s, vars, f, g); } else { MoreFuel(w, s, vars, g, f); }
  }
}
