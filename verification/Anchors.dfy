/** A frame starts again only if its program has a `breakelse` without an anchor. */
module Anchors {
  import opened Values
  import opened Syntax
  import opened Semantics

  /** What cannot become of a statement that stands where `continue` may be used if cont, and `breakelse`
      if here. */
  predicate Steady(o: Outcome, cont: bool, here: bool) {
    !o.Restart? && !o.Unknown? && (o.Continued? ==> cont) && (o.BrokeElse? ==> here)
  }

  lemma CaseAnchored(cases: seq<Case>, i: nat)
    requires WellFormedCases(cases) && AnchoredCases(cases) && i < |cases|
    ensures WellFormed(cases[i].body, false) && Anchored(cases[i].body, true)
  {
    hide WellFormed, Anchored;
    if i > 0 { CaseAnchored(cases[1..], i - 1); }
  }

  lemma CatchAnchored(catches: seq<Catch>, cont: bool, i: nat)
    requires WellFormedCatches(catches, cont) && AnchoredCatches(catches) && i < |catches|
    ensures (WellFormed(catches[i].body, true) || WellFormed(catches[i].body, false)) && Anchored(catches[i].body, true)
  {
    hide WellFormed, Anchored;
    if i > 0 { CatchAnchored(catches[1..], cont && Drift(catches[0].body) == 0, i - 1); }
  }

  /** A well-formed program whose every `breakelse` is anchored never starts its frame again, at any fuel. */
  lemma {:induction false} StaysPut(w: World, s: Stmt, cont: bool, here: bool, vars: Vars, fuel: nat)
    requires WellFormed(s, cont) && Anchored(s, here)
    ensures Steady(Exec(w, s, vars, fuel), cont, here)
    decreases fuel, s, 3, 0
  {
    hide ExecItems, LoopWhile, LoopDo, LoopFor, Select, Handle, Concluded, Eval, ExecAssign, Drift;
    match s
    case Group(items) => ItemsStay(w, items, cont, here, vars, fuel);
    case If(c, t, e) =>
      var r := Eval(w, c, vars);
      if r.Ok? && Truth(w, r.v) {
        StaysPut(w, t, cont, here, vars, fuel);
      } else if r.Ok? && e.Some? {
        StaysPut(w, e.value, cont && Drift(t) == 0, here, vars, fuel);
      }
    case While(_, _, _) => WhileStays(w, s, vars, false, fuel);
    case Do(_, _) => DoStays(w, s, vars, fuel);
    case For(init, _, _, _) =>
      if init.None? {
        ForStays(w, s, vars, fuel);
      } else if ExecAssign(w, init.value, vars).r.Ok? {
        ForStays(w, s, ExecAssign(w, init.value, vars).vars, fuel);
      }
    case Switch(e, _) =>
      var r := Eval(w, e, vars);
      if r.Ok? { SelectStays(w, s, 0, r.v, vars, fuel); }
    case Try(b, _, _) =>
      StaysPut(w, b, cont, true, vars, fuel);
      var o := Exec(w, b, vars, fuel);
      if o.Threw? { HandleStays(w, s, cont, 0, o.vars, o.x, fuel); } else { ConcludedStays(w, s, cont, o, fuel); }
    case _ =>
  }

  lemma {:induction false} ItemsStay(w: World, items: seq<Stmt>, cont: bool, here: bool, vars: Vars, fuel: nat)
    requires WellFormedItems(items, cont) && AnchoredItems(items, here)
    ensures Steady(ExecItems(w, items, vars, fuel), cont, here)
    decreases fuel, items, 2, 0
  {
    hide Exec, WellFormed, Anchored, Drift;
    if items != [] {
      StaysPut(w, items[0], cont, here, vars, fuel);
      var o := Exec(w, items[0], vars, fuel);
      if o.Normal? { ItemsStay(w, items[1..], cont && Drift(items[0]) == 0, here, o.vars, fuel); }
    }
  }

  // ----- loops -----

  lemma {:induction false} WhileStays(w: World, s: Stmt, vars: Vars, visited: bool, fuel: nat)
    requires s.While? && WellFormed(s, false) && Anchored(s, false)
    ensures Steady(LoopWhile(w, s, vars, visited, fuel), false, false)
    decreases fuel, s, 2, 1
  {
    hide Exec, Eval, ElsePart, Drift;
    var r := Eval(w, s.cond, vars);
    if r.Ok? && Truth(w, r.v) {
      StaysPut(w, s.body, true, s.els.Some?, vars, fuel);
      var o := Exec(w, s.body, vars, fuel);
      if Again(o) && fuel > 0 {
        WhileStays(w, s, o.vars, true, fuel - 1);
      } else if o.BrokeElse? && s.els.Some? {
        ElseStays(w, s, o.vars, fuel);
      }
    } else if r.Ok? && s.els.Some? && !visited {
      ElseStays(w, s, vars, fuel);
    }
  }

  lemma {:induction false} ElseStays(w: World, s: Stmt, vars: Vars, fuel: nat)
    requires s.While? && s.els.Some? && WellFormed(s, false) && Anchored(s, false)
    ensures Steady(ElsePart(w, s, vars, fuel), false, false)
    decreases fuel, s, 1, 0
  {
    hide Exec, LoopWhile, Drift;
    StaysPut(w, s.els.value, Drift(s.body) == 0, true, vars, fuel);
    var o := Exec(w, s.els.value, vars, fuel);
    if o.Continued? && fuel > 0 {
      WhileStays(w, s, o.vars, true, fuel - 1);
    } else if o.BrokeElse? && fuel > 0 {
      ElseStays(w, s, o.vars, fuel - 1);
    }
  }

  lemma {:induction false} DoStays(w: World, s: Stmt, vars: Vars, fuel: nat)
    requires s.Do? && WellFormed(s, false) && Anchored(s, false)
    ensures Steady(LoopDo(w, s, vars, fuel), false, false)
    decreases fuel, s, 2, 0
  {
    hide Exec, Eval;
    StaysPut(w, s.body, true, false, vars, fuel);
    var o := Exec(w, s.body, vars, fuel);
    if Again(o) {
      var r := Eval(w, s.cond, o.vars);
      if r.Ok? && Truth(w, r.v) && fuel > 0 { DoStays(w, s, o.vars, fuel - 1); }
    }
  }

  lemma {:induction false} ForStays(w: World, s: Stmt, vars: Vars, fuel: nat)
    requires s.For? && WellFormed(s, false) && Anchored(s, false)
    ensures Steady(LoopFor(w, s, vars, fuel), false, false)
    decreases fuel, s, 2, 1
  {
    hide Exec, Eval, ForStep, Drift;
    var r := Eval(w, s.cond, vars);
    if r.Ok? && Truth(w, r.v) {
      StaysPut(w, s.body, true, false, vars, fuel);
      var o := Exec(w, s.body, vars, fuel);
      if Again(o) { StepStays(w, s, o.vars, fuel); }
    }
  }

  lemma {:induction false} StepStays(w: World, s: Stmt, vars: Vars, fuel: nat)
    requires s.For? && WellFormed(s, false) && Anchored(s, false)
    ensures Steady(ForStep(w, s, vars, fuel), false, false)
    decreases fuel, s, 1, 0
  {
    hide Exec, LoopFor, Drift;
    StaysPut(w, s.step, Drift(s.body) == 0, false, vars, fuel);
    var o := Exec(w, s.step, vars, fuel);
    if o.Normal? && fuel > 0 {
      ForStays(w, s, o.vars, fuel - 1);
    } else if o.Continued? && fuel > 0 {
      StepStays(w, s, o.vars, fuel - 1);
    }
  }

  // ----- switch -----

  lemma {:induction false} SelectStays(w: World, s: Stmt, i: nat, v: Value, vars: Vars, fuel: nat)
    requires s.Switch? && WellFormed(s, false) && Anchored(s, false) && i <= |s.cases|
    ensures Steady(Select(w, s, i, v, vars, fuel), false, false)
    decreases fuel, s, 2, |s.cases| - i
  {
    hide Eval, FallThrough, WellFormedCases, AnchoredCases;
    if i == |s.cases| {
      FallStays(w, s, DefaultIndex(s.cases), vars, fuel);
    } else if s.cases[i].test.None? {
      SelectStays(w, s, i + 1, v, vars, fuel);
    } else {
      var e := Eval(w, s.cases[i].test.value, vars);
      if e.Ok? {
        var r := w.compare(Eq, e.v, v);
        if r.Ok? && Truth(w, r.v) { FallStays(w, s, i, vars, fuel); } else if r.Ok? { SelectStays(w, s, i + 1, v, vars, fuel); }
      }
    }
  }

  lemma {:induction false} FallStays(w: World, s: Stmt, i: nat, vars: Vars, fuel: nat)
    requires s.Switch? && WellFormed(s, false) && Anchored(s, false) && i <= |s.cases|
    ensures Steady(FallThrough(w, s, i, vars, fuel), false, false)
    decreases fuel, s, 1, |s.cases| - i
  {
    hide Exec, WellFormedCases, AnchoredCases;
    if i < |s.cases| {
      CaseAnchored(s.cases, i);
      assert s.cases[i].body < s;
      StaysPut(w, s.cases[i].body, false, true, vars, fuel);
      var o := Exec(w, s.cases[i].body, vars, fuel);
      if o.Normal? {
        FallStays(w, s, i + 1, o.vars, fuel);
      } else if o.BrokeElse? && fuel > 0 {
        FallStays(w, s, DefaultIndex(s.cases), o.vars, fuel - 1);
      }
    }
  }

  // ----- try -----

  lemma {:induction false} HandleStays(w: World, s: Stmt, cont: bool, i: nat, vars: Vars, x: Thrown, fuel: nat)
    requires s.Try? && WellFormed(s, cont) && Anchored(s, false) && i <= |s.catches|
    ensures Steady(Handle(w, s, i, vars, x, fuel), false, false)
    decreases fuel, s, 2, |s.catches| - i
  {
    hide Exec, Lookup, Finish, Rethrow, Concluded, Drift, DriftCatches, WellFormedCatches, AnchoredCatches;
    if i == |s.catches| {
      FinishStays(w, s, cont, vars, if s.catches == [] then Nothing else Unmatched(x), fuel);
    } else {
      var h := s.catches[i];
      var c := Lookup(w, vars, h.classId);
      if !c.Ok? {
        RethrowStays(w, s, cont, Failure(vars, c), fuel);
      } else if !w.isInstance(x, c.v) {
        HandleStays(w, s, cont, i + 1, vars, x, fuel);
      } else {
        CatchAnchored(s.catches, cont && Drift(s.body) == 0, i);
        assert h.body < s;
        var v := vars[h.id := x];
        var o := Exec(w, h.body, v, fuel);
        if WellFormed(h.body, true) { StaysPut(w, h.body, true, true, v, fuel); } else { StaysPut(w, h.body, false, true, v, fuel); }
        if o.Threw? { RethrowStays(w, s, cont, o, fuel); } else { ConcludedStays(w, s, cont, o, fuel); }
      }
    }
  }

  lemma {:induction false} ConcludedStays(w: World, s: Stmt, cont: bool, o: Outcome, fuel: nat)
    requires s.Try? && WellFormed(s, cont) && Anchored(s, false) && !o.Threw? && Steady(o, true, true)
    ensures Steady(Concluded(w, s, o, fuel), false, false)
    decreases fuel, s, 1, 2
  {
    hide Finish, WellFormed, Anchored;
    if o.Normal? {
      FinishStays(w, s, cont, o.vars, Nothing, fuel);
    } else if o.Returned? {
      FinishStays(w, s, cont, o.vars, Returning(o.v), fuel);
    }
  }

  lemma {:induction false} FinishStays(w: World, s: Stmt, cont: bool, vars: Vars, p: After, fuel: nat)
    requires s.Try? && WellFormed(s, cont) && Anchored(s, false)
    ensures Steady(Finish(w, s, vars, p, fuel), false, false)
    decreases fuel, s, 1, 1
  {
    hide Exec, Rethrow, Drift, DriftCatches;
    StaysPut(w, s.fin, cont && Drift(s.body) + DriftCatches(s.catches) == 0, true, vars, fuel);
    var o := Exec(w, s.fin, vars, fuel);
    if o.Normal? {
      if p.Unmatched? && !p.x.Exc? { RethrowStays(w, s, cont, Threw(o.vars, w.strayFinally), fuel); }
    } else if !o.Returned? {
      RethrowStays(w, s, cont, Across(o), fuel);
    }
  }

  lemma {:induction false} RethrowStays(w: World, s: Stmt, cont: bool, o: Outcome, fuel: nat)
    requires s.Try? && WellFormed(s, cont) && Anchored(s, false) && Settled(o) && Steady(o, false, false)
    ensures Steady(Rethrow(w, s, o, fuel), false, false)
    decreases fuel, s, 0, 0
  {
    hide Handle, WellFormed, Anchored;
    if o.Threw? && fuel > 0 { HandleStays(w, s, cont, 0, o.vars, o.x, fuel - 1); }
  }

  // ----- witnesses -----

  /** A `breakelse` without an anchor does start the frame again. */
  lemma RestartHappens(w: World, vars: Vars, fuel: nat)
    ensures var s := While(Const(Bool(true)), BreakElse, None);
            WellFormed(s, false) && !Anchored(s, true) && Exec(w, s, vars, fuel) == Restart(vars)
  {
    var s := While(Const(Bool(true)), BreakElse, None);
    assert WhileRound(w, s, vars, fuel) == Restart(vars);
  }
}
