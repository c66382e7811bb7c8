/** A reference semantics for the source language: what a program means, without code, labels,
    stacks or blocks.  Loops are cut off by fuel; `Timeout` says that the fuel ran out. */
module Semantics {
  import opened Values
  import opened Syntax

  // ----- expressions -----

  datatype Results = OkAll(vs: seq<Value>) | RaiseAll(x: Thrown) | FatalAll

  /** Operators evaluate left to right, comparisons right to left. */
  function Eval(w: World, e: Expr, vars: Vars): Result
    decreases e, 1
  {
    match e
    case Const(v) => Ok(v)
    case NullLit => Lookup(w, vars, "null")
    case Name(id) => Lookup(w, vars, id)
    case Operator(op, l, r) =>
      var a := Eval(w, l, vars);
      if !a.Ok? then a else
      var b := Eval(w, r, vars);
      if !b.Ok? then b else w.operate(op, a.v, b.v)
    case Comparison(cmp, l, r) =>
      var b := Eval(w, r, vars);
      if !b.Ok? then b else
      var a := Eval(w, l, vars);
      if !a.Ok? then a else w.compare(cmp, a.v, b.v)
    case And(l, r) =>
      var a := Eval(w, l, vars);
      if a.Ok? && Truth(w, a.v) then Eval(w, r, vars) else a
    case Or(l, r) =>
      var a := Eval(w, l, vars);
      if a.Ok? && !Truth(w, a.v) then Eval(w, r, vars) else a
    case Coalesce(l, r) =>
      var a := Eval(w, l, vars);
      if a.Ok? && !Truth(w, a.v) then Eval(w, r, vars) else a
    case Ternary(c, t, f) =>
      var a := Eval(w, c, vars);
      if !a.Ok? then a else Eval(w, if Truth(w, a.v) then t else f, vars)
    case TupleLit(elems) =>
      match EvalItems(w, elems, vars)
      case OkAll(vs) => Ok(Tuple(vs))
      case RaiseAll(x) => Raise(x)
      case FatalAll => Fatal
  }

  function EvalItems(w: World, elems: seq<Expr>, vars: Vars): Results
    decreases elems, 0
  {
    if elems == [] then OkAll([]) else
    match Eval(w, elems[0], vars)
    case Raise(x) => RaiseAll(x)
    case Fatal => FatalAll
    case Ok(v) =>
      var rest := EvalItems(w, elems[1..], vars);
      if rest.OkAll? then OkAll([v] + rest.vs) else rest
  }

  // ----- assignments -----

  /** What an assignment leaves: the variables so far, and the value it produced, if it did. */
  datatype Stored = Stored(vars: Vars, r: Result)

  /** Store v into a target.  A tuple target takes its elements from the last to the first;
      targets beyond the end of the tuple get null. */
  function Store(w: World, t: Expr, v: Value, vars: Vars): Stored
    decreases t, 1
  {
    if t.Name? then Stored(vars[t.id := v], Ok(v))
    else if !t.TupleLit? then Stored(vars, Fatal)
    else if !v.Tuple? then Stored(vars, Raise(w.notTuple))
    else
      var s := StoreItems(w, t.elems, v.items, vars);
      if s.r.Ok? then Stored(s.vars, Ok(v)) else s
  }

  function StoreItems(w: World, ts: seq<Expr>, items: seq<Value>, vars: Vars): Stored
    decreases ts, 0
  {
    if ts == [] then Stored(vars, Ok(Null)) else
    var n := |ts| - 1;
    var s := Store(w, ts[n], ItemOrNull(items, n), vars);
    if s.r.Ok? then StoreItems(w, ts[..n], items, s.vars) else s
  }

  /** Combine the old value of the target with the right side, if the assignment is compound, and store. */
  function Assigned(w: World, a: Assign, former: Value, v: Value, vars: Vars): Stored {
    var r := if a.op.Some? then w.operate(a.op.value, former, v) else Ok(v);
    if r.Ok? then Store(w, a.target, r.v, vars) else Stored(vars, r)
  }

  /** A compound assignment reads its target before it evaluates its right side. */
  function ExecAssign(w: World, a: Assign, vars: Vars): Stored
    decreases a, 1
  {
    var former := if a.op.Some? then Eval(w, a.target, vars) else Ok(Null);
    if !former.Ok? then Stored(vars, former) else
    var rhs := ExecRhs(w, a.rhs, vars);
    if rhs.r.Ok? then Assigned(w, a, former.v, rhs.r.v, rhs.vars) else rhs
  }

  function ExecRhs(w: World, rhs: Rhs, vars: Vars): Stored
    decreases rhs, 0
  {
    match rhs
    case Plain(e) => Stored(vars, Eval(w, e, vars))
    case Chain(a) => ExecAssign(w, a, vars)
  }

  // ----- statements -----

  /** How a statement ends.  `Return` is a return still on its way through the enclosing `try`;
      `Leave` is the frame left with a value.  `Hang` is a jump out of a construct that the machine's
      block unwinding cannot carry out: it never ends.  `Abort` is a fatal error of the process.
      `Restart` is a `breakelse` in a loop that has no else part: the frame starts again, with that
      loop still open.  `Unknown` is a `continue` out of a switch, which well-formed programs do not have. */
  datatype Outcome =
    | Normal(vars: Vars)
    | Broke(vars: Vars)
    | BrokeElse(vars: Vars)
    | Continued(vars: Vars)
    | Threw(vars: Vars, x: Thrown)
    | Returned(vars: Vars, v: Value)
    | Leave(vars: Vars, v: Value)
    | Hang
    | Abort
    | Restart(vars: Vars)
    | Unknown
    | Timeout

  function Failure(vars: Vars, r: Result): Outcome
    requires !r.Ok?
  {
    if r.Raise? then Threw(vars, r.x) else Abort
  }

  function OfStored(s: Stored): Outcome {
    if s.r.Ok? then Normal(s.vars) else Failure(s.vars, s.r)
  }

  /** The outcome of a loop or switch whose body ended with o, for the outcomes that end it. */
  function Escape(o: Outcome): Outcome {
    match o
    case Broke(vars) => Normal(vars)
    case Returned(_, _) => Hang
    case _ => o
  }

  /** Only instances of `exception` can be thrown; throwing anything else raises another exception. */
  function ThrowValue(w: World, v: Value, vars: Vars): Outcome {
    if v.Num? || !w.throwable(v) then Threw(vars, w.notThrowable) else Threw(vars, v)
  }

  /** No loop jump or return is on its way out: loops and switches settle their own. */
  predicate Settled(o: Outcome) {
    !o.Broke? && !o.BrokeElse? && !o.Continued? && !o.Returned?
  }

  predicate Again(o: Outcome) {
    o.Normal? || o.Continued?
  }

  function Exec(w: World, s: Stmt, vars: Vars, fuel: nat): Outcome
    decreases fuel, s, 3, 0
  {
    match s
    case Nop => Normal(vars)
    case Let(a) => OfStored(ExecAssign(w, a, vars))
    case Group(items) => ExecItems(w, items, vars, fuel)
    case If(c, t, e) =>
      var r := Eval(w, c, vars);
      if !r.Ok? then Failure(vars, r)
      else if Truth(w, r.v) then Exec(w, t, vars, fuel)
      else if e.Some? then Exec(w, e.value, vars, fuel)
      else Normal(vars)
    case While(_, _, _) => LoopWhile(w, s, vars, false, fuel)
    case Do(_, _) => LoopDo(w, s, vars, fuel)
    case For(init, _, _, _) =>
      if init.None? then LoopFor(w, s, vars, fuel) else
      var i := ExecAssign(w, init.value, vars);
      if i.r.Ok? then LoopFor(w, s, i.vars, fuel) else Failure(i.vars, i.r)
    case Break => Broke(vars)
    case BreakElse => BrokeElse(vars)
    case Continue => Continued(vars)
    case Switch(e, _) =>
      var r := Eval(w, e, vars);
      if !r.Ok? then Failure(vars, r) else Select(w, s, 0, r.v, vars, fuel)
    case Try(b, _, _) =>
      var o := Exec(w, b, vars, fuel);
      if o.Threw? then Handle(w, s, 0, o.vars, o.x, fuel) else Concluded(w, s, o, fuel)
    case Throw(e) =>
      var r := Eval(w, e, vars);
      if r.Ok? then ThrowValue(w, r.v, vars) else Failure(vars, r)
    case Return(e) =>
      var r := Eval(w, e, vars);
      if r.Ok? then Returned(vars, r.v) else Failure(vars, r)
  }

  function ExecItems(w: World, items: seq<Stmt>, vars: Vars, fuel: nat): Outcome
    decreases fuel, items, 2, 0
  {
    if items == [] then Normal(vars) else
    var o := Exec(w, items[0], vars, fuel);
    if o.Normal? then ExecItems(w, items[1..], o.vars, fuel) else o
  }

  /** A while loop from its test on.  Its else part runs when the very first test fails, and on
      `breakelse`; `visited` says that a test has been made. */
  function LoopWhile(w: World, s: Stmt, vars: Vars, visited: bool, fuel: nat): (out: Outcome)
    requires s.While?
    ensures Settled(out)
    decreases fuel, s, 2, 1
  {
    var r := Eval(w, s.cond, vars);
    if !r.Ok? then Failure(vars, r)
    else if Truth(w, r.v) then WhileRound(w, s, vars, fuel)
    else if s.els.Some? && !visited then ElsePart(w, s, vars, fuel)
    else Normal(vars)
  }

  /** The body, once its test has succeeded, and what comes after it. */
  function WhileRound(w: World, s: Stmt, vars: Vars, fuel: nat): (out: Outcome)
    requires s.While?
    ensures Settled(out)
    decreases fuel, s, 2, 0
  {
    var o := Exec(w, s.body, vars, fuel);
    if Again(o) then (if fuel == 0 then Timeout else LoopWhile(w, s, o.vars, true, fuel - 1))
    else if o.BrokeElse? then (if s.els.Some? then ElsePart(w, s, o.vars, fuel) else Restart(o.vars))
    else Escape(o)
  }

  /** The else part still belongs to the loop: `continue` in it goes back to the test, `breakelse`
      starts it again. */
  function ElsePart(w: World, s: Stmt, vars: Vars, fuel: nat): (out: Outcome)
    requires s.While? && s.els.Some?
    ensures Settled(out)
    decreases fuel, s, 1, 0
  {
    var o := Exec(w, s.els.value, vars, fuel);
    if o.Continued? then (if fuel == 0 then Timeout else LoopWhile(w, s, o.vars, true, fuel - 1))
    else if o.BrokeElse? then (if fuel == 0 then Timeout else ElsePart(w, s, o.vars, fuel - 1))
    else Escape(o)
  }

  function LoopDo(w: World, s: Stmt, vars: Vars, fuel: nat): (out: Outcome)
    requires s.Do?
    ensures Settled(out)
    decreases fuel, s, 2, 0
  {
    var o := Exec(w, s.body, vars, fuel);
    if o.BrokeElse? then Restart(o.vars)
    else if Again(o) then DoCheck(w, s, o.vars, fuel)
    else Escape(o)
  }

  /** The test of a do loop, which `continue` goes to. */
  function DoCheck(w: World, s: Stmt, vars: Vars, fuel: nat): (out: Outcome)
    requires s.Do?
    ensures Settled(out)
    decreases fuel, s, 1, 0
  {
    var r := Eval(w, s.cond, vars);
    if !r.Ok? then Failure(vars, r)
    else if !Truth(w, r.v) then Normal(vars)
    else if fuel == 0 then Timeout
    else LoopDo(w, s, vars, fuel - 1)
  }

  function LoopFor(w: World, s: Stmt, vars: Vars, fuel: nat): (out: Outcome)
    requires s.For?
    ensures Settled(out)
    decreases fuel, s, 2, 1
  {
    var r := Eval(w, s.cond, vars);
    if !r.Ok? then Failure(vars, r)
    else if !Truth(w, r.v) then Normal(vars)
    else ForRound(w, s, vars, fuel)
  }

  /** The body, once its test has succeeded, and what comes after it. */
  function ForRound(w: World, s: Stmt, vars: Vars, fuel: nat): (out: Outcome)
    requires s.For?
    ensures Settled(out)
    decreases fuel, s, 2, 0
  {
    var o := Exec(w, s.body, vars, fuel);
    if Again(o) then ForStep(w, s, o.vars, fuel)
    else if o.BrokeElse? then Restart(o.vars)
    else Escape(o)
  }

  /** The step part.  `continue` in it starts it again, without a test: a loop written without a
      step has its body in this place. */
  function ForStep(w: World, s: Stmt, vars: Vars, fuel: nat): (out: Outcome)
    requires s.For?
    ensures Settled(out)
    decreases fuel, s, 1, 0
  {
    var o := Exec(w, s.step, vars, fuel);
    if o.Normal? then (if fuel == 0 then Timeout else LoopFor(w, s, o.vars, fuel - 1))
    else if o.Continued? then (if fuel == 0 then Timeout else ForStep(w, s, o.vars, fuel - 1))
    else if o.BrokeElse? then Restart(o.vars)
    else Escape(o)
  }

  /** Test the cases from i on, in source order, skipping the default. */
  function Select(w: World, s: Stmt, i: nat, v: Value, vars: Vars, fuel: nat): (out: Outcome)
    requires s.Switch? && i <= |s.cases|
    ensures Settled(out)
    decreases fuel, s, 2, |s.cases| - i, 0
  {
    if i == |s.cases| then FromDefault(w, s, vars, fuel)
    else if s.cases[i].test.None? then Select(w, s, i + 1, v, vars, fuel)
    else
      var e := Eval(w, s.cases[i].test.value, vars);
      if !e.Ok? then Failure(vars, e) else
      Compared(w, s, i, e.v, v, vars, fuel)
  }

  /** Case i, the value e of its test compared with the subject v. */
  function Compared(w: World, s: Stmt, i: nat, e: Value, v: Value, vars: Vars, fuel: nat): (out: Outcome)
    requires s.Switch? && i < |s.cases|
    ensures Settled(out)
    decreases fuel, s, 2, |s.cases| - i - 1, 1
  {
    var r := w.compare(Eq, e, v);
    if !r.Ok? then Failure(vars, r)
    else if Truth(w, r.v) then FallThrough(w, s, i, vars, fuel)
    else Select(w, s, i + 1, v, vars, fuel)
  }

  /** Where the default stands; past the last case if there is none. */
  function DefaultIndex(cases: seq<Case>): (d: nat)
    ensures d <= |cases|
  {
    if cases == [] || cases[0].test.None? then 0 else 1 + DefaultIndex(cases[1..])
  }

  function FromDefault(w: World, s: Stmt, vars: Vars, fuel: nat): (out: Outcome)
    requires s.Switch?
    ensures Settled(out)
    decreases fuel, s, 1, |s.cases| + 1
  {
    FallThrough(w, s, DefaultIndex(s.cases), vars, fuel)
  }

  /** Run the bodies from case i on, in source order and through the default. */
  function FallThrough(w: World, s: Stmt, i: nat, vars: Vars, fuel: nat): (out: Outcome)
    requires s.Switch? && i <= |s.cases|
    ensures Settled(out)
    decreases fuel, s, 1, |s.cases| - i
  {
    if i == |s.cases| then Normal(vars) else
    var o := Exec(w, s.cases[i].body, vars, fuel);
    if o.Normal? then FallThrough(w, s, i + 1, o.vars, fuel)
    else if o.BrokeElse? then (if fuel == 0 then Timeout else FromDefault(w, s, o.vars, fuel - 1))
    else if o.Continued? then Unknown
    else Escape(o)
  }

  /** What the finally part still has to do when its own body ends normally. */
  datatype After = Nothing | Returning(v: Value) | Unmatched(x: Thrown)

  /** Loop jumps cannot cross a try. */
  function Across(o: Outcome): (out: Outcome)
    ensures !out.Broke? && !out.BrokeElse? && !out.Continued?
  {
    if o.Broke? || o.BrokeElse? || o.Continued? then Hang else o
  }

  /** Look for the first catch, from i on, whose class matches x.  An exception raised on the way, in
      a handler or in the finally part starts over with the first catch of the same try. */
  function Handle(w: World, s: Stmt, i: nat, vars: Vars, x: Thrown, fuel: nat): (out: Outcome)
    requires s.Try? && i <= |s.catches|
    ensures Settled(out)
    decreases fuel, s, 2, |s.catches| - i
  {
    if i == |s.catches| then
      Finish(w, s, vars, if s.catches == [] then Nothing else Unmatched(x), fuel)
    else
      var h := s.catches[i];
      var c := Lookup(w, vars, h.classId);
      if !c.Ok? then Rethrow(w, s, Failure(vars, c), fuel)
      else if !w.isInstance(x, c.v) then Handle(w, s, i + 1, vars, x, fuel)
      else Handled(w, s, i, vars[h.id := x], fuel)
  }

  /** The handler of catch i, its variable already bound. */
  function Handled(w: World, s: Stmt, i: nat, vars: Vars, fuel: nat): (out: Outcome)
    requires s.Try? && i < |s.catches|
    ensures Settled(out)
    decreases fuel, s, 1, 3
  {
    var o := Exec(w, s.catches[i].body, vars, fuel);
    if o.Threw? then Rethrow(w, s, o, fuel) else Concluded(w, s, o, fuel)
  }

  /** What comes after the try block or a handler that raised nothing. */
  function Concluded(w: World, s: Stmt, o: Outcome, fuel: nat): (out: Outcome)
    requires s.Try? && !o.Threw?
    ensures Settled(out)
    decreases fuel, s, 1, 2
  {
    if o.Normal? then Finish(w, s, o.vars, Nothing, fuel)
    else if o.Returned? then Finish(w, s, o.vars, Returning(o.v), fuel)
    else Across(o)
  }

  function Rethrow(w: World, s: Stmt, o: Outcome, fuel: nat): (out: Outcome)
    requires s.Try? && Settled(o)
    ensures Settled(out)
    decreases fuel, s, 0, 0
  {
    if !o.Threw? then o
    else if fuel == 0 then Timeout
    else Handle(w, s, 0, o.vars, o.x, fuel - 1)
  }

  /** The finally part. */
  function Finish(w: World, s: Stmt, vars: Vars, p: After, fuel: nat): (out: Outcome)
    requires s.Try?
    ensures Settled(out)
    decreases fuel, s, 1, 1
  {
    var o := Exec(w, s.fin, vars, fuel);
    if o.Normal? then Ended(w, s, o.vars, p, fuel)
    else if o.Returned? then Leave(o.vars, o.v)
    else Rethrow(w, s, Across(o), fuel)
  }

  /** A return from the try or from a handler leaves the frame once the finally part has run; an
      exception that no catch took cannot be raised again. */
  function Ended(w: World, s: Stmt, vars: Vars, p: After, fuel: nat): (out: Outcome)
    requires s.Try?
    ensures Settled(out)
    decreases fuel, s, 1, 0
  {
    match p
    case Nothing => Normal(vars)
    case Returning(v) => Leave(vars, v)
    case Unmatched(x) => if x.Exc? then Hang else Rethrow(w, s, Threw(vars, w.strayFinally), fuel)
  }
}
