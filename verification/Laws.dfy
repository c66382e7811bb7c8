/** What single constructs mean, said without the recursions that define it: which case of a switch
    and which catch of a try is taken, what a chain or a tuple assignment stores. */
module Laws {
  import opened Values
  import opened Syntax
  import opened Semantics
  import opened Assembly
  import opened Emit

  function At(vars: Vars, id: Id): Option<Value> {
    if id in vars then Some(vars[id]) else None
  }

  // ----- names -----

  /** A local identifier hides all others, and an identifier of the frame hides a builtin. */
  lemma NameHides(w: World, id: Id, vars: Vars, frameIds: map<Id, Value>, builtins: map<Id, Value>)
    ensures id in vars ==> Eval(w.(frameIds := frameIds, builtins := builtins), Name(id), vars) == Ok(vars[id])
    ensures id !in vars && id in w.frameIds ==> Eval(w.(builtins := builtins), Name(id), vars) == Ok(w.frameIds[id])
    ensures id !in vars && id !in w.frameIds && id in w.builtins ==> Eval(w, Name(id), vars) == Ok(w.builtins[id])
    ensures id !in vars && id !in w.frameIds && id !in w.builtins ==> Eval(w, Name(id), vars) == Raise(w.missing(id))
  {
  }

  // ----- conditions -----

  lemma TruthHolds(w: World, v: Value)
    ensures Truth(w, v) == Holds(w, v)
  {
  }

  /** The value that decides is the value of the expression, or the other side is. */
  lemma LogicDecides(w: World, l: Expr, r: Expr, vars: Vars, v: Value)
    requires Eval(w, l, vars) == Ok(v)
    ensures Eval(w, And(l, r), vars) == if Holds(w, v) then Eval(w, r, vars) else Ok(v)
    ensures Eval(w, Or(l, r), vars) == if Holds(w, v) then Ok(v) else Eval(w, r, vars)
    ensures Eval(w, Coalesce(l, r), vars) == if Holds(w, v) then Ok(v) else Eval(w, r, vars)
  {
    hide Truth, Holds;
    TruthHolds(w, v);
  }

  lemma TernaryDecides(w: World, c: Expr, t: Expr, e: Expr, vars: Vars, v: Value)
    requires Eval(w, c, vars) == Ok(v)
    ensures Eval(w, Ternary(c, t, e), vars) == Eval(w, if Holds(w, v) then t else e, vars)
  {
    hide Truth, Holds;
    TruthHolds(w, v);
  }

  lemma IfDecides(w: World, c: Expr, t: Stmt, e: Stmt, vars: Vars, fuel: nat, v: Value)
    requires Eval(w, c, vars) == Ok(v)
    ensures Exec(w, If(c, t, Some(e)), vars, fuel) == Exec(w, if Holds(w, v) then t else e, vars, fuel)
    ensures Exec(w, If(c, t, None), vars, fuel) == if Holds(w, v) then Exec(w, t, vars, fuel) else Normal(vars)
  {
    hide Truth, Holds;
    TruthHolds(w, v);
  }

  /** A while loop ends when its condition does not hold; its else part runs then, but only if that was the
      first test. */
  lemma WhileEnds(w: World, c: Expr, body: Stmt, els: Stmt, vars: Vars, fuel: nat, v: Value)
    requires Eval(w, c, vars) == Ok(v) && !Holds(w, v)
    ensures Exec(w, While(c, body, None), vars, fuel) == Normal(vars)
    ensures var o := Exec(w, els, vars, fuel);
            o.Normal? || o.Broke? ==> Exec(w, While(c, body, Some(els)), vars, fuel) == Normal(o.vars)
  {
    hide Truth, Holds;
    TruthHolds(w, v);
    assert LoopWhile(w, While(c, body, Some(els)), vars, false, fuel) == ElsePart(w, While(c, body, Some(els)), vars, fuel);
  }

  /** As long as it holds, the loop is its body and then the same loop. */
  lemma WhileTurns(w: World, c: Expr, body: Stmt, vars: Vars, fuel: nat, v: Value, next: Vars)
    requires Eval(w, c, vars) == Ok(v) && Holds(w, v)
    requires Exec(w, body, vars, fuel) in {Normal(next), Continued(next)}
    ensures Exec(w, While(c, body, None), vars, fuel)
         == if fuel == 0 then Timeout else Exec(w, While(c, body, None), next, fuel - 1)
  {
    hide Truth, Holds;
    TruthHolds(w, v);
    var s := While(c, body, None);
    assert WhileRound(w, s, vars, fuel) == if fuel == 0 then Timeout else LoopWhile(w, s, next, true, fuel - 1);
    assert fuel > 0 ==> LoopWhile(w, s, next, true, fuel - 1) == LoopWhile(w, s, next, false, fuel - 1);
  }

  lemma DoTurns(w: World, body: Stmt, c: Expr, vars: Vars, fuel: nat, v: Value, next: Vars)
    requires Exec(w, body, vars, fuel) in {Normal(next), Continued(next)} && Eval(w, c, next) == Ok(v)
    ensures Exec(w, Do(body, c), vars, fuel)
         == if !Holds(w, v) then Normal(next) else if fuel == 0 then Timeout else Exec(w, Do(body, c), next, fuel - 1)
  {
    hide Truth, Holds;
    TruthHolds(w, v);
    assert LoopDo(w, Do(body, c), vars, fuel) == DoCheck(w, Do(body, c), next, fuel);
  }

  lemma ForEnds(w: World, s: Stmt, vars: Vars, fuel: nat, v: Value)
    requires s.For? && s.init.None? && Eval(w, s.cond, vars) == Ok(v) && !Holds(w, v)
    ensures Exec(w, s, vars, fuel) == Normal(vars)
  {
    hide Truth, Holds;
    TruthHolds(w, v);
  }

  lemma ForTurns(w: World, s: Stmt, vars: Vars, fuel: nat, v: Value, mid: Vars, next: Vars)
    requires s.For? && s.init.None? && Eval(w, s.cond, vars) == Ok(v) && Holds(w, v)
    requires Exec(w, s.body, vars, fuel) in {Normal(mid), Continued(mid)} && Exec(w, s.step, mid, fuel) == Normal(next)
    ensures Exec(w, s, vars, fuel) == if fuel == 0 then Timeout else Exec(w, s, next, fuel - 1)
  {
    hide Truth, Holds;
    TruthHolds(w, v);
    assert LoopFor(w, s, vars, fuel) == ForRound(w, s, vars, fuel) == ForStep(w, s, mid, fuel);
  }

  // ----- tuple destructuring -----

  /** The value has the shape of the target: a tuple wherever the target is one. */
  predicate Shaped(t: Expr, v: Value)
    decreases t
  {
    t.Name? || (t.TupleLit? && v.Tuple? && forall i :: 0 <= i < |t.elems| ==> Shaped(t.elems[i], ItemOrNull(v.items, i)))
  }

  predicate Mentions(t: Expr, id: Id)
    decreases t
  {
    (t.Name? && t.id == id) || (t.TupleLit? && exists i :: 0 <= i < |t.elems| && Mentions(t.elems[i], id))
  }

  /** What the leftmost occurrence of id in the target is given: the element at the same place, null if
      the tuple is too short. */
  function Given(t: Expr, v: Value, id: Id): Value
    requires Mentions(t, id)
    decreases t
  {
    if t.Name? || !v.Tuple? then v
    else
      var i := First(t.elems, id);
      Given(t.elems[i], ItemOrNull(v.items, i), id)
  }

  /** The leftmost target that mentions id. */
  function First(ts: seq<Expr>, id: Id): (i: nat)
    requires exists j :: 0 <= j < |ts| && Mentions(ts[j], id)
    ensures i < |ts| && Mentions(ts[i], id) && forall j :: 0 <= j < i ==> !Mentions(ts[j], id)
  {
    if Mentions(ts[0], id) then 0 else
    assert forall j :: 1 <= j < |ts| ==> ts[j] == ts[1..][j - 1];
    1 + First(ts[1..], id)
  }

  /** What id stands for once all targets have been stored. */
  function ItemFor(ts: seq<Expr>, items: seq<Value>, vars: Vars, id: Id): Option<Value> {
    if exists i :: 0 <= i < |ts| && Mentions(ts[i], id) then
      var i := First(ts, id);
      Some(Given(ts[i], ItemOrNull(items, i), id))
    else At(vars, id)
  }

  /** Destructuring succeeds exactly if the value has the target's shape.  Then every name has got its
      element, or null beyond the end, and all other variables are as they were. */
  lemma {:induction false} Destructured(w: World, t: Expr, v: Value, vars: Vars)
    requires IsTarget(t)
    ensures var s := Store(w, t, v, vars);
            && (s.r.Ok? <==> Shaped(t, v)) && !s.r.Fatal?
            && (s.r.Ok? ==> forall id :: At(s.vars, id) == if Mentions(t, id) then Some(Given(t, v, id)) else At(vars, id))
    decreases t, 1
  {
    hide StoreItems, First;
    if t.TupleLit? && v.Tuple? {
      ItemsDestructured(w, t.elems, v.items, vars);
    }
  }

  lemma {:induction false} ItemsDestructured(w: World, ts: seq<Expr>, items: seq<Value>, vars: Vars)
    requires forall t | t in ts :: IsTarget(t)
    ensures var s := StoreItems(w, ts, items, vars);
            && (s.r.Ok? <==> forall i :: 0 <= i < |ts| ==> Shaped(ts[i], ItemOrNull(items, i))) && !s.r.Fatal?
            && (s.r.Ok? ==> forall id :: At(s.vars, id) == ItemFor(ts, items, vars, id))
    decreases ts, 0
  {
    hide Store, Given, First, Shaped, Mentions;
    if ts != [] {
      var n := |ts| - 1;
      var s0 := Store(w, ts[n], ItemOrNull(items, n), vars);
      Destructured(w, ts[n], ItemOrNull(items, n), vars);
      if s0.r.Ok? {
        var s := StoreItems(w, ts[..n], items, s0.vars);
        ItemsDestructured(w, ts[..n], items, s0.vars);
        if s.r.Ok? {
          forall id ensures At(s.vars, id) == ItemFor(ts, items, vars, id) { FirstOf(ts, id); }
        }
      }
    }
  }

  lemma FirstOf(ts: seq<Expr>, id: Id)
    requires ts != []
    ensures var n := |ts| - 1;
            if exists j :: 0 <= j < n && Mentions(ts[..n][j], id)
            then First(ts[..n], id) < n && (exists j :: 0 <= j < |ts| && Mentions(ts[j], id)) && First(ts, id) == First(ts[..n], id)
            else if Mentions(ts[n], id) then First(ts, id) == n
            else forall j :: 0 <= j < |ts| ==> !Mentions(ts[j], id)
  {
    var n := |ts| - 1;
    assert forall j :: 0 <= j < n ==> ts[..n][j] == ts[j];
    if j :| 0 <= j < n && Mentions(ts[..n][j], id) {
      assert Mentions(ts[j], id);
      var a, b := First(ts[..n], id), First(ts, id);
      assert Mentions(ts[a], id);
    }
  }

  /** Distinct names in a row get the elements in a row, and null where there are none. */
  lemma NamesInRow(w: World, ids: seq<Id>, items: seq<Value>, vars: Vars, k: nat)
    requires k < |ids| && forall i, j :: 0 <= i < j < |ids| ==> ids[i] != ids[j]
    ensures var s := Store(w, TupleLit(Row(ids)), Tuple(items), vars);
            s.r.Ok? && At(s.vars, ids[k]) == Some(if k < |items| then items[k] else Null)
  {
    var ts := Row(ids);
    assert IsTarget(TupleLit(ts));
    Destructured(w, TupleLit(ts), Tuple(items), vars);
    hide Store;
    assert Mentions(ts[k], ids[k]);
    assert First(ts, ids[k]) == k;
    assert Given(TupleLit(ts), Tuple(items), ids[k]) == Given(ts[k], ItemOrNull(items, k), ids[k]);
  }

  function Row(ids: seq<Id>): (ts: seq<Expr>)
    ensures |ts| == |ids|
  {
    seq(|ids|, k requires 0 <= k < |ids| => Name(ids[k]))
  }

  // ----- chained assignments -----

  function Length(a: Assign): nat {
    if a.rhs.Chain? then 1 + Length(a.rhs.a) else 1
  }

  /** The expression at the right end of a chain. */
  function Source(a: Assign): Expr {
    match a.rhs case Plain(e) => e case Chain(b) => Source(b)
  }

  /** How many of the lines are DUP_TOP. */
  function Dups(code: seq<Line>): nat {
    if code == [] then 0 else (if code[0] == Op(DupTop) then 1 else 0) + Dups(code[1..])
  }

  lemma {:induction false} DupsJoin(a: seq<Line>, b: seq<Line>)
    ensures Dups(a + b) == Dups(a) + Dups(b)
  {
    if a == [] {
      assert a + b == b;
    } else {
      assert (a + b)[1..] == a[1..] + b;
      DupsJoin(a[1..], b);
    }
  }

  /** A target has no labels, and neither its load nor its store duplicates anything. */
  lemma {:induction false} TargetPlain(t: Expr, n: nat)
    requires IsTarget(t)
    ensures ExprCount(t) == 0 && Dups(EmitExpr(t, n)) == 0 && Dups(EmitStore(t)) == 0
    decreases t, 1
  {
    hide EmitItems, EmitStoreItems, ItemsCount;
    if t.TupleLit? {
      TargetsPlain(t.elems, n);
      DupsJoin(EmitItems(t.elems, n), [Op(PackTuple(|t.elems|))]);
      DupsJoin([Op(UnpackTuple(|t.elems|))], EmitStoreItems(t.elems));
    }
  }

  lemma {:induction false} TargetsPlain(ts: seq<Expr>, n: nat)
    requires forall t | t in ts :: IsTarget(t)
    ensures ItemsCount(ts) == 0 && Dups(EmitItems(ts, n)) == 0
    ensures Dups(EmitStoreItems(ts)) == 0
    decreases ts, 0
  {
    hide EmitExpr, EmitStore, ExprCount, Dups;
    assert Dups([]) == 0 by { NoDups(); }
    if ts != [] {
      var j := |ts| - 1;
      TargetPlain(ts[0], n);
      TargetPlain(ts[j], n);
      TargetsPlain(ts[1..], n);
      TargetsPlain(ts[..j], n);
      DupsJoin(EmitExpr(ts[0], n), EmitItems(ts[1..], n));
      DupsJoin(EmitStore(ts[j]), EmitStoreItems(ts[..j]));
    }
  }

  lemma NoDups()
    ensures Dups([]) == 0
  {
  }

  /** A chain of n assignments that is entered with the counter at 0 emits n - 1 DUP_TOPs beside those of
      its right end; entered with the counter above 0, it emits n. */
  lemma {:induction false} ChainDups(a: Assign, n: nat, m: nat)
    requires IsChain(a)
    ensures Dups(EmitAssign(a, n, m)) == Dups(EmitExpr(Source(a), n)) + Length(a) - (if m == 0 then 1 else 0)
    decreases a
  {
    hide EmitExpr, EmitStore, ExprCount, Dups, EmitAssigned;
    TargetPlain(a.target, n);
    NoDups();
    PendingSame(a.rhs, m);
    DupsJoin(EmitOld(a, n) + EmitRhs(a.rhs, n, m), EmitAssigned(a, m > 0));
    DupsJoin(EmitOld(a, n), EmitRhs(a.rhs, n, m));
    AssignedDups(a, m > 0);
    if a.rhs.Chain? { ChainDups(a.rhs.a, n, m + 1); }
  }

  lemma AssignedDups(a: Assign, keep: bool)
    requires IsTarget(a.target)
    ensures Dups(EmitAssigned(a, keep)) == if keep then 1 else 0
  {
    hide EmitStore;
    TargetPlain(a.target, 0);
    var ops, dup := if a.op.Some? then [Op(Operate(a.op.value))] else [], if keep then [Op(DupTop)] else [];
    DupsJoin(ops + dup, EmitStore(a.target));
    DupsJoin(ops, dup);
  }

  /** What a chain produces.  Every compound assignment in it combines the value that its target had before
      the whole chain with the value of the assignment inside it. */
  function ChainValue(w: World, a: Assign, vars: Vars): Result {
    var former := if a.op.Some? then Eval(w, a.target, vars) else Ok(Null);
    if !former.Ok? then former else
    var inner := match a.rhs case Plain(e) => Eval(w, e, vars) case Chain(b) => ChainValue(w, b, vars);
    if !inner.Ok? then inner else
    var r := if a.op.Some? then w.operate(a.op.value, former.v, inner.v) else inner;
    if r.Ok? && !Shaped(a.target, r.v) then Raise(w.notTuple) else r
  }

  /** What a name stands for after a chain: the outermost target that mentions it has given it its part of
      what that assignment produced. */
  function ChainGives(w: World, a: Assign, vars: Vars, id: Id): Option<Value>
    requires ChainValue(w, a, vars).Ok?
  {
    if Mentions(a.target, id) then Some(Given(a.target, ChainValue(w, a, vars).v, id))
    else match a.rhs case Plain(_) => At(vars, id) case Chain(b) => ChainGives(w, b, vars, id)
  }

  /** Every chain, plain or compound, with names and nested tuples as targets: what it produces, or
      raises, and what each name has afterwards. */
  lemma {:induction false} ChainStores(w: World, a: Assign, vars: Vars)
    requires IsChain(a)
    ensures var s := ExecAssign(w, a, vars);
            && s.r == ChainValue(w, a, vars)
            && (s.r.Ok? ==> forall id :: At(s.vars, id) == ChainGives(w, a, vars, id))
  {
    hide Eval, IsTarget, Store, Shaped, Mentions, Given, At;
    var former := if a.op.Some? then Eval(w, a.target, vars) else Ok(Null);
    if a.rhs.Chain? { ChainStores(w, a.rhs.a, vars); }
    var rhs := ExecRhs(w, a.rhs, vars);
    if former.Ok? && rhs.r.Ok? {
      var r := if a.op.Some? then w.operate(a.op.value, former.v, rhs.r.v) else rhs.r;
      if r.Ok? {
        Destructured(w, a.target, r.v, rhs.vars);
        StoreYields(w, a.target, r.v, rhs.vars);
      }
    }
  }

  /** A store yields the value it stored, or the one exception that it can raise. */
  lemma {:induction false} StoreYields(w: World, t: Expr, v: Value, vars: Vars)
    requires IsTarget(t)
    ensures var s := Store(w, t, v, vars); s.r == Ok(v) || s.r == Raise(w.notTuple)
    decreases t, 1
  {
    hide StoreItems;
    if t.TupleLit? && v.Tuple? { StoresYield(w, t.elems, v.items, vars); }
  }

  lemma {:induction false} StoresYield(w: World, ts: seq<Expr>, items: seq<Value>, vars: Vars)
    requires forall t | t in ts :: IsTarget(t)
    ensures var s := StoreItems(w, ts, items, vars); s.r.Ok? || s.r == Raise(w.notTuple)
    decreases ts, 0
  {
    hide Store;
    if ts != [] {
      var n := |ts| - 1;
      StoreYields(w, ts[n], ItemOrNull(items, n), vars);
      StoresYield(w, ts[..n], items, Store(w, ts[n], ItemOrNull(items, n), vars).vars);
    }
  }

  // ----- switch -----

  /** The test of a case: with its value e compared to v, whether the case is taken. */
  ghost predicate Tests(w: World, c: Case, v: Value, vars: Vars, taken: bool) {
    c.test.Some? &&
    var e := Eval(w, c.test.value, vars);
    e.Ok? && var r := w.compare(Eq, e.v, v); r.Ok? && Holds(w, r.v) == taken
  }

  /** None of the cases before i is taken. */
  ghost predicate NoneBefore(w: World, cases: seq<Case>, i: nat, v: Value, vars: Vars)
    requires i <= |cases|
  {
    forall j :: 0 <= j < i ==> cases[j].test.None? || Tests(w, cases[j], v, vars, false)
  }

  /** Where the bodies start: at the first case that is equal, wherever the default stands; at the default
      if no case is. */
  ghost predicate Chosen(w: World, cases: seq<Case>, i: nat, v: Value, vars: Vars) {
    i <= |cases| &&
    ((i < |cases| && Tests(w, cases[i], v, vars, true) && NoneBefore(w, cases, i, v, vars))
     || (NoneBefore(w, cases, |cases|, v, vars) && i == DefaultIndex(cases)))
  }

  lemma {:induction false} Selects(w: World, s: Stmt, i: nat, k: nat, v: Value, vars: Vars, fuel: nat)
    requires s.Switch? && k <= |s.cases| && Chosen(w, s.cases, i, v, vars)
    requires i < k ==> NoneBefore(w, s.cases, |s.cases|, v, vars)
    ensures Select(w, s, k, v, vars, fuel) == FallThrough(w, s, i, vars, fuel)
    decreases |s.cases| - k
  {
    hide Eval, FallThrough, DefaultIndex;
    if k < |s.cases| {
      if s.cases[k].test.None? || Tests(w, s.cases[k], v, vars, false) { Selects(w, s, i, k + 1, v, vars, fuel); }
    }
  }

  /** The bodies of the cases from i on to k end normally, one after the other. */
  ghost predicate Through(w: World, cases: seq<Case>, i: nat, k: nat, states: seq<Vars>, fuel: nat)
    requires i <= k <= |cases|
  {
    && |states| == k - i + 1
    && forall j :: i <= j < k ==> Exec(w, cases[j].body, states[j - i], fuel) == Normal(states[j - i + 1])
  }

  lemma {:induction false} Falls(w: World, s: Stmt, i: nat, k: nat, states: seq<Vars>, fuel: nat)
    requires s.Switch? && i <= k <= |s.cases| && Through(w, s.cases, i, k, states, fuel)
    ensures FallThrough(w, s, i, states[0], fuel) == FallThrough(w, s, k, states[k - i], fuel)
    decreases k - i
  {
    hide Exec;
    if i < k { Falls(w, s, i + 1, k, states[1..], fuel); }
  }

  /** A switch enters the first equal case, or else its default, runs the bodies in source order, through
      the default as well, and ends after the last one or at the first break.  A `breakelse` goes on at the
      default. */
  lemma SwitchRuns(w: World, s: Stmt, vars: Vars, fuel: nat, v: Value, i: nat, k: nat, states: seq<Vars>)
    requires s.Switch? && Eval(w, s.subject, vars) == Ok(v) && Chosen(w, s.cases, i, v, vars)
    requires i <= k <= |s.cases| && Through(w, s.cases, i, k, states, fuel) && states[0] == vars
    ensures k == |s.cases| ==> Exec(w, s, vars, fuel) == Normal(states[k - i])
    ensures k < |s.cases| ==>
              var o := Exec(w, s.cases[k].body, states[k - i], fuel);
              && (o.Broke? ==> Exec(w, s, vars, fuel) == Normal(o.vars))
              && (o.BrokeElse? ==> Exec(w, s, vars, fuel) == if fuel == 0 then Timeout else FromDefault(w, s, o.vars, fuel - 1))
  {
    hide Eval, Select, Through, Chosen;
    Selects(w, s, i, 0, v, vars, fuel);
    Falls(w, s, i, k, states, fuel);
  }

  // ----- try -----

  /** Catch i is the first one whose class x is an instance of. */
  ghost predicate Takes(w: World, catches: seq<Catch>, i: nat, x: Value, vars: Vars) {
    && i < |catches|
    && (forall j :: 0 <= j <= i ==> Lookup(w, vars, catches[j].classId).Ok?)
    && (forall j :: 0 <= j <= i ==> (w.isInstance(x, Lookup(w, vars, catches[j].classId).v) <==> j == i))
  }

  lemma {:induction false} FirstCatch(w: World, s: Stmt, i: nat, k: nat, x: Thrown, vars: Vars, fuel: nat)
    requires s.Try? && Takes(w, s.catches, i, x, vars) && k <= i
    ensures Handle(w, s, k, vars, x, fuel) == Handled(w, s, i, vars[s.catches[i].id := x], fuel)
    decreases i - k
  {
    hide Lookup, Handled;
    if k < i { FirstCatch(w, s, i, k + 1, x, vars, fuel); }
  }

  /** No catch matches: the finally part runs with the exception still pending. */
  lemma {:induction false} NoCatch(w: World, s: Stmt, k: nat, x: Thrown, vars: Vars, fuel: nat)
    requires s.Try? && s.catches != [] && k <= |s.catches|
    requires forall j :: 0 <= j < |s.catches| ==> Lookup(w, vars, s.catches[j].classId).Ok? && !w.isInstance(x, Lookup(w, vars, s.catches[j].classId).v)
    ensures Handle(w, s, k, vars, x, fuel) == Finish(w, s, vars, Unmatched(x), fuel)
    decreases |s.catches| - k
  {
    hide Lookup, Finish;
    if k < |s.catches| { NoCatch(w, s, k + 1, x, vars, fuel); }
  }

  /** How the finally part is reached: with these variables, and this still to be done. */
  datatype Arrival = Arrival(vars: Vars, todo: After)

  /** No catch matches. */
  ghost predicate Untaken(w: World, catches: seq<Catch>, x: Value, vars: Vars) {
    && catches != []
    && forall j :: 0 <= j < |catches| ==> Lookup(w, vars, catches[j].classId).Ok? && !w.isInstance(x, Lookup(w, vars, catches[j].classId).v)
  }

  /** The try block, or the handler of the first matching catch with its variable bound, has ended
      normally or with a return; or no catch took what the block has thrown; or there are no catches. */
  ghost predicate Arrives(w: World, s: Stmt, vars: Vars, fuel: nat, a: Arrival)
    requires s.Try?
  {
    var o := Exec(w, s.body, vars, fuel);
    || Completed(o, a)
    || (o.Threw? && exists i: nat ::
          Takes(w, s.catches, i, o.x, o.vars) && Completed(Exec(w, s.catches[i].body, o.vars[s.catches[i].id := o.x], fuel), a))
    || (o.Threw? && Untaken(w, s.catches, o.x, o.vars) && a == Arrival(o.vars, Unmatched(o.x)))
    || (o.Threw? && s.catches == [] && a == Arrival(o.vars, Nothing))
  }

  predicate Completed(o: Outcome, a: Arrival) {
    (a.todo.Nothing? && o == Normal(a.vars)) || (a.todo.Returning? && o == Returned(a.vars, a.todo.v))
  }

  /** Whichever way the finally part is reached, it runs once, from there.  Then the try ends, or the frame is
      left with the value that was to be returned; an exception that no catch took is a hang if it is an
      instance of a built-in class, and is otherwise replaced by another one, for which the catches are
      searched again.  An exception without any catch to take it is forgotten. */
  lemma FinallyOnce(w: World, s: Stmt, vars: Vars, fuel: nat, a: Arrival, last: Vars)
    requires s.Try? && Arrives(w, s, vars, fuel, a) && Exec(w, s.fin, a.vars, fuel) == Normal(last)
    ensures Exec(w, s, vars, fuel) ==
            if a.todo.Nothing? then Normal(last)
            else if a.todo.Returning? then Leave(last, a.todo.v)
            else if a.todo.x.Exc? then Hang
            else if fuel == 0 then Timeout
            else Handle(w, s, 0, last, w.strayFinally, fuel - 1)
  {
    hide Handle, Takes, Untaken;
    var o := Exec(w, s.body, vars, fuel);
    Finishes(w, s, fuel, a, last);
    if o.Threw? {
      ThrownHandled(w, s, vars, fuel, a);
    } else {
      ConcludedFinish(w, s, o, fuel, a);
    }
  }

  lemma ConcludedFinish(w: World, s: Stmt, o: Outcome, fuel: nat, a: Arrival)
    requires s.Try? && Completed(o, a)
    ensures Concluded(w, s, o, fuel) == Finish(w, s, a.vars, a.todo, fuel)
  {
    hide Finish;
  }

  lemma ThrownHandled(w: World, s: Stmt, vars: Vars, fuel: nat, a: Arrival)
    requires s.Try? && Arrives(w, s, vars, fuel, a) && Exec(w, s.body, vars, fuel).Threw?
    ensures var o := Exec(w, s.body, vars, fuel); Handle(w, s, 0, o.vars, o.x, fuel) == Finish(w, s, a.vars, a.todo, fuel)
  {
    hide Finish, Exec;
    var o := Exec(w, s.body, vars, fuel);
    if i: nat :| Takes(w, s.catches, i, o.x, o.vars) && Completed(Exec(w, s.catches[i].body, o.vars[s.catches[i].id := o.x], fuel), a) {
      FirstCatch(w, s, i, 0, o.x, o.vars, fuel);
      ConcludedFinish(w, s, Exec(w, s.catches[i].body, o.vars[s.catches[i].id := o.x], fuel), fuel, a);
    } else if s.catches != [] {
      NoCatch(w, s, 0, o.x, o.vars, fuel);
    }
  }

  lemma Finishes(w: World, s: Stmt, fuel: nat, a: Arrival, last: Vars)
    requires s.Try? && Exec(w, s.fin, a.vars, fuel) == Normal(last)
    ensures Finish(w, s, a.vars, a.todo, fuel) ==
            if a.todo.Nothing? then Normal(last)
            else if a.todo.Returning? then Leave(last, a.todo.v)
            else if a.todo.x.Exc? then Hang
            else if fuel == 0 then Timeout
            else Handle(w, s, 0, last, w.strayFinally, fuel - 1)
  {
    hide Handle;
    assert Finish(w, s, a.vars, a.todo, fuel) == Ended(w, s, last, a.todo, fuel);
    assert a.todo.Unmatched? && !a.todo.x.Exc? ==> Ended(w, s, last, a.todo, fuel) == Rethrow(w, s, Threw(last, w.strayFinally), fuel);
  }
}
