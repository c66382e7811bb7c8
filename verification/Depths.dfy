/** The depth of both stacks at each line, as the shape of the code fixes it. */
module Depths {
  import opened Values
  import opened Syntax
  import opened Assembly
  import opened Emit
  import opened Machine

  /** Which part of a try a line stands in: the block or a handler, the catches while they are matched,
      or the finally part. */
  datatype Phase = Trying | Matching | Finishing

  /** A block as the code knows it: its labels, and how many values lie below it. */
  datatype Region =
    | InLoop(end: Label, orElse: Option<Label>, depth: nat)
    | InTry(onCatch: Label, onFinally: Label, endFinally: Label, depth: nat, phase: Phase)

  /** What a line is entered with: these blocks, the outermost first, and this many operands. */
  datatype Place = Place(regions: seq<Region>, depth: nat)

  /** What a region has on the operand stack for itself: the marker of a try, and the exception that its
      catches are matched with. */
  function Own(r: Region): nat {
    if r.InLoop? then 0 else if r.phase.Matching? then 2 else 1
  }

  /** How much of the operand stack the code in a region leaves alone. */
  function Base(r: Region): nat {
    r.depth + Own(r)
  }

  function BaseOf(a: Place): nat {
    if a.regions == [] then 0 else Base(a.regions[|a.regions| - 1])
  }

  function Up(a: Place, n: nat): Place {
    a.(depth := a.depth + n)
  }

  function Down(a: Place, n: nat): Place {
    a.(depth := if n <= a.depth then a.depth - n else 0)
  }

  function Inside(a: Place, r: Region): Place {
    Place(a.regions + [r], Base(r))
  }

  function Outside(a: Place, depth: nat): Place {
    Place(if a.regions == [] then [] else a.regions[..|a.regions| - 1], depth)
  }

  function Innermost(a: Place): Option<Region> {
    if a.regions == [] then None else Some(a.regions[|a.regions| - 1])
  }

  // ----- constructs -----

  /** Construct number n, entered at a place; withElse is for while loops. */
  datatype Entry = Entry(at: Place, withElse: bool)

  function LoopRegion(end: LabelKind, orElse: Option<LabelKind>, n: nat, depth: nat): Region {
    InLoop(L(end, n), if orElse.Some? then Some(L(orElse.value, n)) else None, depth)
  }

  function InWhile(a: Place, n: nat, withElse: bool): Place {
    Inside(a, LoopRegion(WhileEnd, if withElse then Some(WhileElse) else None, n, a.depth))
  }

  function InDo(a: Place, n: nat): Place {
    Inside(a, LoopRegion(DoEnd, None, n, a.depth))
  }

  function InFor(a: Place, n: nat): Place {
    Inside(a, LoopRegion(ForEnd, None, n, a.depth))
  }

  /** The subject of a switch lies below its block. */
  function InSwitch(a: Place, n: nat): Place {
    Inside(a, LoopRegion(SwitchEnd, Some(SwitchDefault), n, a.depth + 1))
  }

  function TryRegion(a: Place, n: nat, phase: Phase): Region {
    InTry(L(TryCatch, n), L(TryFinally, n), L(TryEndFinally, n), a.depth, phase)
  }

  /** Where the label of a construct stands. */
  function PlaceOf(e: Entry, l: Label): Place {
    var k := l.kind;
    if k.SwitchBegin? || k.SwitchDefault? || k.SwitchEnd? || k.CasePre? || k.CaseTest? || k.CaseBody? then SwitchPlace(e.at, l)
    else if k.TryCatch? || k.TryFinally? || k.TryEndFinally? || k.TryMatch? || k.TryNoMatch? then TryPlace(e.at, l)
    else if k.WhileTop? || k.WhilePreElse? || k.WhileElse? || k.WhilePreEnd? || k.WhileEnd? then WhilePlace(e, l)
    else if k.DoTop? || k.DoCmp? || k.DoPreEnd? || k.DoEnd? then Up(InDo(e.at, l.num), if k.DoPreEnd? then 1 else 0)
    else if k.ForTest? || k.ForIncdec? || k.ForPreEnd? || k.ForEnd? then Up(InFor(e.at, l.num), if k.ForPreEnd? then 1 else 0)
    else BranchPlace(e.at, k)
  }

  function SwitchPlace(a: Place, l: Label): Place {
    match l.kind
    case SwitchBegin => Up(a, 1)
    case CasePre => Up(InSwitch(a, l.num), if l.sub == 0 then 0 else 1)
    case _ => InSwitch(a, l.num)
  }

  function TryPlace(a: Place, l: Label): Place {
    match l.kind
    case TryCatch => Inside(a, TryRegion(a, l.num, Matching))
    case TryMatch => Inside(a, TryRegion(a, l.num, Trying))
    case TryNoMatch => Up(Inside(a, TryRegion(a, l.num, Matching)), 1)
    case _ => Inside(a, TryRegion(a, l.num, Finishing))
  }

  function WhilePlace(e: Entry, l: Label): Place {
    Up(InWhile(e.at, l.num, e.withElse), if l.kind.WhilePreElse? || l.kind.WhilePreEnd? then 1 else 0)
  }

  function BranchPlace(a: Place, k: LabelKind): Place {
    match k
    case AndEnd => Up(a, 1)
    case OrEnd => Up(a, 1)
    case IfElse => Up(a, 1)
    case TernaryElse => Up(a, 1)
    case TernaryEnd => Up(a, 1)
    case CoalesceDefault => Up(a, 2)
    case CoalesceEnd => Up(a, 1)
    case _ => a
  }

  type Env = seq<Entry>

  function PlaceAt(env: Env, l: Label): Place {
    if 1 <= l.num <= |env| then PlaceOf(env[l.num - 1], l) else Place([], 0)
  }

  // ----- the constructs of a program, in the order of their numbers -----

  function EnvExpr(e: Expr, a: Place): (env: Env)
    ensures |env| == ExprCount(e)
    decreases e, 1
  {
    match e
    case Operator(_, l, r) => EnvExpr(l, a) + EnvExpr(r, Up(a, 1))
    case Comparison(_, l, r) => EnvExpr(r, a) + EnvExpr(l, Up(a, 1))
    case And(l, r) => [Entry(a, false)] + EnvExpr(l, a) + EnvExpr(r, a)
    case Or(l, r) => [Entry(a, false)] + EnvExpr(l, a) + EnvExpr(r, a)
    case Coalesce(l, r) => [Entry(a, false)] + EnvExpr(l, a) + EnvExpr(r, a)
    case Ternary(c, t, f) => [Entry(a, false)] + EnvExpr(c, a) + EnvExpr(t, a) + EnvExpr(f, a)
    case TupleLit(elems) => EnvItems(elems, a)
    case _ => []
  }

  function EnvItems(elems: seq<Expr>, a: Place): (env: Env)
    ensures |env| == ItemsCount(elems)
    decreases elems, 0
  {
    if elems == [] then [] else EnvExpr(elems[0], a) + EnvItems(elems[1..], Up(a, 1))
  }

  function EnvAssign(s: Assign, a: Place): (env: Env)
    ensures |env| == AssignCount(s)
  {
    (if s.op.Some? then EnvExpr(s.target, a) else [])
    + (var b := if s.op.Some? then Up(a, 1) else a;
       match s.rhs case Plain(e) => EnvExpr(e, b) case Chain(c) => EnvAssign(c, b))
  }

  function EnvInit(i: Option<Assign>, a: Place): (env: Env)
    ensures |env| == InitCount(i)
  {
    if i.Some? then EnvAssign(i.value, a) else []
  }

  function EnvStmt(s: Stmt, n: nat, a: Place): (env: Env)
    ensures |env| == StmtCount(s)
    decreases s, 1
  {
    hide EnvExpr, EnvAssign, EnvInit, ExprCount, AssignCount, InitCount, Inside, InWhile, InDo, InFor, InSwitch, TryRegion;
    match s
    case Let(x) => EnvAssign(x, a)
    case Group(items) => EnvStmts(items, n, a)
    case If(c, t, e) =>
      var n1 := n + 1 + ExprCount(c);
      [Entry(a, false)] + EnvExpr(c, a) + EnvStmt(t, n1, a)
      + (if e.Some? then EnvStmt(e.value, n1 + StmtCount(t), a) else [])
    case While(c, b, e) =>
      var n1, inner := n + 1 + ExprCount(c), InWhile(a, n + 1, e.Some?);
      [Entry(a, e.Some?)] + EnvExpr(c, inner) + EnvStmt(b, n1, inner)
      + (if e.Some? then EnvStmt(e.value, n1 + StmtCount(b), inner) else [])
    case Do(b, c) =>
      var inner := InDo(a, n + 1);
      [Entry(a, false)] + EnvStmt(b, n + 1, inner) + EnvExpr(c, inner)
    case For(i, c, st, b) =>
      var n2, inner := n + 1 + InitCount(i) + ExprCount(c), InFor(a, n + 1);
      [Entry(a, false)] + EnvInit(i, a) + EnvExpr(c, inner) + EnvStmt(b, n2, inner) + EnvStmt(st, n2 + StmtCount(b), inner)
    case Switch(e, cases) =>
      [Entry(a, false)] + EnvExpr(e, a) + EnvCases(cases, n + 1 + ExprCount(e), InSwitch(a, n + 1))
    case Try(b, catches, f) =>
      var n1, inner := n + 1 + StmtCount(b), Inside(a, TryRegion(a, n + 1, Trying));
      [Entry(a, false)] + EnvStmt(b, n + 1, inner) + EnvCatches(catches, n1, inner)
      + EnvStmt(f, n1 + CatchesCount(catches), Inside(a, TryRegion(a, n + 1, Finishing)))
    case Throw(e) => EnvExpr(e, a)
    case Return(e) => EnvExpr(e, a)
    case _ => []
  }

  function EnvStmts(items: seq<Stmt>, n: nat, a: Place): (env: Env)
    ensures |env| == StmtsCount(items)
    decreases items, 0
  {
    if items == [] then [] else EnvStmt(items[0], n, a) + EnvStmts(items[1..], n + StmtCount(items[0]), a)
  }

  /** A test is evaluated above a copy of the subject. */
  function EnvCases(cases: seq<Case>, n: nat, a: Place): (env: Env)
    ensures |env| == CasesCount(cases)
    decreases cases, 0
  {
    if cases == [] then [] else
    assert cases[0].body < cases[0];
    var n1 := n + if cases[0].test.Some? then ExprCount(cases[0].test.value) else 0;
    (if cases[0].test.Some? then EnvExpr(cases[0].test.value, Up(a, 1)) else [])
    + EnvStmt(cases[0].body, n1, a) + EnvCases(cases[1..], n1 + StmtCount(cases[0].body), a)
  }

  function EnvCatches(catches: seq<Catch>, n: nat, a: Place): (env: Env)
    ensures |env| == CatchesCount(catches)
    decreases catches, 0
  {
    if catches == [] then [] else
    EnvStmt(catches[0].body, n, a) + EnvCatches(catches[1..], n + StmtCount(catches[0].body), a)
  }

  // ----- the flow through the lines -----

  /** Nothing but the exception lies on the stack for the catches. */
  predicate OnException(a: Place) {
    Innermost(a).Some? && Innermost(a).value.InTry? && Innermost(a).value.phase.Matching? && a.depth == BaseOf(a)
  }

  /** The exception has been taken from the stack. */
  function Caught(a: Place): Place
    requires OnException(a)
  {
    Place(a.regions[..|a.regions| - 1] + [Innermost(a).value.(phase := Trying)], a.depth - 1)
  }

  /** Where an instruction goes on to; nowhere behind a jump. */
  function Next(i: Instr<Label>, a: Place): Option<Place> {
    match i
    case LoadConst(_) => Some(Up(a, 1))
    case LoadId(_) => Some(Up(a, 1))
    case DupTop => Some(Up(a, 1))
    case StoreId(_) => Some(if OnException(a) then Caught(a) else Down(a, 1))
    case PopTop => Some(if OnException(a) then Caught(a) else Down(a, 1))
    case Operate(_) => Some(Down(a, 1))
    case Compare(_) => Some(Down(a, 1))
    case CompareEx => Some(Down(a, 1))
    case Throw => Some(Down(a, 1))
    case Return => Some(Down(a, 1))
    case JumpForward(_) => None
    case JumpAbsolute(_) => None
    case SetupLoop(end) => Some(Inside(a, InLoop(end, None, a.depth)))
    case SetupElseLoop(end, orElse) => Some(Inside(a, InLoop(end, Some(orElse), a.depth)))
    case SetupExcept(c, f, e) => Some(Inside(a, InTry(c, f, e, a.depth, Trying)))
    case PopBlock => Some(Outside(a, a.depth))
    case EndFinally => Some(Outside(a, if a.depth == 0 then 0 else a.depth - 1))
    case PackTuple(n) => Some(Up(Down(a, n), 1))
    case UnpackTuple(n) => Some(Up(Down(a, 1), n))
    case _ => Some(a)
  }

  /** How many operands an instruction takes away, at least for a while. */
  function Takes(i: Instr<Label>): nat {
    if i.DupTop? || i.JumpIfTrue? || i.JumpIfFalse? || i.JumpIfFirstFalse? then 0 else Needs(i)
  }

  /** The code in these regions can find the way to their labels. */
  predicate Sane(env: Env, rs: seq<Region>) {
    forall j :: 0 <= j < |rs| ==> SaneAt(env, rs, j)
  }

  predicate SaneAt(env: Env, rs: seq<Region>, j: nat)
    requires j < |rs|
  {
    var r, outer := rs[j], rs[..j];
    && (j > 0 ==> Base(rs[j - 1]) <= r.depth)
    && match r
       case InLoop(end, orElse, depth) =>
         && PlaceAt(env, end) == Place(outer + [r], depth)
         && (orElse.Some? ==> PlaceAt(env, orElse.value) == Place(outer + [r], depth))
       case InTry(onCatch, onFinally, _, depth, _) =>
         && PlaceAt(env, onCatch) == Place(outer + [r.(phase := Matching)], depth + 2)
         && PlaceAt(env, onFinally) == Place(outer + [r.(phase := Finishing)], depth + 1)
  }

  /** A jump from a handler or the try part to the finally part, or from the catches, with an exception
      that none of them has taken. */
  predicate Joins(a: Place, b: Place) {
    a == b
    || (&& a.regions != [] && |a.regions| == |b.regions| && a.regions[..|a.regions| - 1] == b.regions[..|a.regions| - 1]
        && Innermost(a).value.InTry? && !Innermost(a).value.phase.Finishing?
        && Innermost(b).value == Innermost(a).value.(phase := Finishing)
        && a.depth == BaseOf(a) && b.depth == BaseOf(b))
  }

  /** The instruction leaves the surroundings of its region alone, and all its ways lead to lines that
      are entered at the same place.  `done` are the labels further up. */
  predicate Checks(env: Env, done: set<Label>, i: Instr<Label>, a: Place) {
    && Sane(env, a.regions)
    && (if i.EndFinally? then Innermost(a).Some? && Innermost(a).value.InTry? && Innermost(a).value.phase.Finishing? && a.depth == BaseOf(a)
        else BaseOf(a) + (if OnException(a) && (i.StoreId? || i.PopTop?) then 0 else Takes(i)) <= a.depth && Needs(i) <= a.depth)
    && match i
       case JumpIfTrue(to) => PlaceAt(env, to) == a
       case JumpIfFalse(to) => PlaceAt(env, to) == a
       case JumpIfFirstFalse(to) => PlaceAt(env, to) == a && Innermost(a).Some?
       case JumpAbsolute(to) => PlaceAt(env, to) == a
       case JumpForward(to) => Joins(a, PlaceAt(env, to))
       case ContinueLoop(to) => Innermost(a).Some? && Innermost(a).value.InLoop? ==> PlaceAt(env, to) == a
       case BreakElseLoop => Innermost(a).Some? && Innermost(a).value.InLoop? ==> Innermost(a).value.orElse.Some?
       case PopBlock => Innermost(a).Some? && Innermost(a).value.InLoop?
       case EndFinally => Innermost(a).value.onFinally in done
       case SetupLoop(_) => Sane(env, Next(i, a).value.regions)
       case SetupElseLoop(_, _) => Sane(env, Next(i, a).value.regions)
       case SetupExcept(_, _, _) => Sane(env, Next(i, a).value.regions)
       case Return =>
         Innermost(a).Some? && Innermost(a).value.InTry? ==>
           if Innermost(a).value.phase.Finishing? then Innermost(a).value.onFinally in done
           else Innermost(a).value.phase.Trying? && a.depth == BaseOf(a) + 1
       case IterReset => false
       case IterFetch(_) => false
       case _ => true
  }

  predicate LineOk(env: Env, done: set<Label>, x: Line, t: Option<Place>) {
    match x
    case Lab(l) => t.None? || t.value == PlaceAt(env, l)
    case Code(i) => t.Some? && Checks(env, done, i, t.value)
  }

  function Flow(env: Env, x: Line, t: Option<Place>): Option<Place> {
    match x
    case Lab(l) => Some(PlaceAt(env, l))
    case Code(i) => if t.Some? then Next(i, t.value) else None
  }

  function Passed(x: Line, done: set<Label>): set<Label> {
    if x.Lab? then done + {x.l} else done
  }

  /** The code, entered at t, ends at u, and every line is entered where it is expected. */
  predicate Typed(env: Env, done: set<Label>, code: seq<Line>, t: Option<Place>, u: Option<Place>)
    decreases code
  {
    if code == [] then t == u
    else LineOk(env, done, code[0], t) && Typed(env, Passed(code[0], done), code[1..], Flow(env, code[0], t), u)
  }

  /** Where line k is entered, if it can be entered at all. */
  function PlaceOfLine(env: Env, p: seq<Line>, k: nat): Option<Place>
    requires k <= |p|
    decreases k
  {
    if k == 0 then Some(Place([], 0)) else Flow(env, p[k - 1], PlaceOfLine(env, p, k - 1))
  }

  function LabelsBefore(p: seq<Line>, k: nat): set<Label>
    requires k <= |p|
    decreases k
  {
    if k == 0 then {} else Passed(p[k - 1], LabelsBefore(p, k - 1))
  }

  // ----- putting code together -----

  lemma ChecksMore(env: Env, done: set<Label>, more: set<Label>, x: Line, t: Option<Place>)
    requires LineOk(env, done, x, t) && done <= more
    ensures LineOk(env, more, x, t)
  {
  }

  lemma {:induction false} TypedMore(env: Env, done: set<Label>, more: set<Label>, code: seq<Line>, t: Option<Place>, u: Option<Place>)
    requires Typed(env, done, code, t, u) && done <= more
    ensures Typed(env, more, code, t, u)
    decreases code
  {
    hide LineOk, Flow;
    if code != [] {
      ChecksMore(env, done, more, code[0], t);
      TypedMore(env, Passed(code[0], done), Passed(code[0], more), code[1..], Flow(env, code[0], t), u);
    }
  }

  lemma {:induction false} Then(env: Env, done: set<Label>, a: seq<Line>, b: seq<Line>, t: Option<Place>, u: Option<Place>, v: Option<Place>)
    requires Typed(env, done, a, t, u) && Typed(env, done, b, u, v)
    ensures Typed(env, done, a + b, t, v)
    decreases a
  {
    hide LineOk, Flow;
    if a == [] {
      assert a + b == b;
    } else {
      assert (a + b)[1..] == a[1..] + b;
      TypedMore(env, done, Passed(a[0], done), b, u, v);
      Then(env, Passed(a[0], done), a[1..], b, Flow(env, a[0], t), u, v);
    }
  }

  /** What comes behind a label may count on it. */
  lemma ThenBehind(env: Env, done: set<Label>, l: Label, b: seq<Line>, t: Option<Place>, v: Option<Place>)
    requires (t.None? || t.value == PlaceAt(env, l)) && Typed(env, done + {l}, b, Some(PlaceAt(env, l)), v)
    ensures Typed(env, done, [Lab(l)] + b, t, v)
  {
    assert ([Lab(l)] + b)[1..] == b;
  }

  lemma Empty(env: Env, done: set<Label>, t: Option<Place>)
    ensures Typed(env, done, [], t, t)
  {
  }

  lemma One(env: Env, done: set<Label>, x: Line, t: Option<Place>)
    requires LineOk(env, done, x, t)
    ensures Typed(env, done, [x], t, Flow(env, x, t))
  {
    assert [x][1..] == [];
  }

  /** One more line in front. */
  lemma Cons(env: Env, done: set<Label>, x: Line, code: seq<Line>, t: Option<Place>, u: Option<Place>)
    requires LineOk(env, done, x, t) && Typed(env, done, code, Flow(env, x, t), u)
    ensures Typed(env, done, [x] + code, t, u)
  {
    hide LineOk, Flow;
    One(env, done, x, t);
    Then(env, done, [x], code, t, Flow(env, x, t), u);
  }

  lemma Two(env: Env, done: set<Label>, x: Line, y: Line, t: Option<Place>)
    requires LineOk(env, done, x, t) && LineOk(env, done, y, Flow(env, x, t))
    ensures Typed(env, done, [x, y], t, Flow(env, y, Flow(env, x, t)))
  {
    hide LineOk, Flow;
    One(env, done, y, Flow(env, x, t));
    Cons(env, done, x, [y], t, Flow(env, y, Flow(env, x, t)));
    assert [x] + [y] == [x, y];
  }

  lemma Three(env: Env, done: set<Label>, x: Line, y: Line, z: Line, t: Option<Place>)
    requires LineOk(env, done, x, t) && LineOk(env, done, y, Flow(env, x, t)) && LineOk(env, done, z, Flow(env, y, Flow(env, x, t)))
    ensures Typed(env, done, [x, y, z], t, Flow(env, z, Flow(env, y, Flow(env, x, t))))
  {
    hide LineOk, Flow;
    Two(env, done, y, z, Flow(env, x, t));
    Cons(env, done, x, [y, z], t, Flow(env, z, Flow(env, y, Flow(env, x, t))));
    assert [x] + [y, z] == [x, y, z];
  }

  lemma Then3(env: Env, done: set<Label>, a: seq<Line>, b: seq<Line>, c: seq<Line>, t0: Option<Place>, t1: Option<Place>, t2: Option<Place>,
              t3: Option<Place>)
    requires Typed(env, done, a, t0, t1) && Typed(env, done, b, t1, t2) && Typed(env, done, c, t2, t3)
    ensures Typed(env, done, a + b + c, t0, t3)
  {
    hide Typed;
    Then(env, done, a, b, t0, t1, t2);
    Then(env, done, a + b, c, t0, t2, t3);
  }

  lemma Then5(env: Env, done: set<Label>, a: seq<Line>, b: seq<Line>, c: seq<Line>, d: seq<Line>, e: seq<Line>,
              t0: Option<Place>, t1: Option<Place>, t2: Option<Place>, t3: Option<Place>, t4: Option<Place>, t5: Option<Place>)
    requires Typed(env, done, a, t0, t1) && Typed(env, done, b, t1, t2) && Typed(env, done, c, t2, t3)
    requires Typed(env, done, d, t3, t4) && Typed(env, done, e, t4, t5)
    ensures Typed(env, done, a + b + c + d + e, t0, t5)
  {
    hide Typed;
    Then3(env, done, a, b, c, t0, t1, t2, t3);
    Then3(env, done, a + b + c, d, e, t0, t3, t4, t5);
  }
}
