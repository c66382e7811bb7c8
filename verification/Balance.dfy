/** Both stacks are in step with the code: whenever a line is about to be executed, the blocks and the
    operand stack are those of its place, up to what a finally part was entered with. */
module Balance {
  import opened Values
  import opened Syntax
  import opened Assembly
  import opened Emit
  import opened Machine
  import opened Assembler
  import opened Depths
  import opened Unwinding

  /** A frame with the places of its lines. */
  datatype Chart = Chart(w: World, p: seq<Line>, main: bool, size: nat, env: Env)

  const Start := Place([], 0)

  ghost predicate Charted(z: Chart) {
    Linkable(z.p) && Fits(z.p, z.main) && exists u :: Typed(z.env, {}, z.p, Some(Start), u)
  }

  function PlaceBy(z: Chart, k: nat): Option<Place>
    requires k <= |z.p|
  {
    PlaceOfLine(z.env, z.p, k)
  }

  // ----- slack -----

  /** How many operands the first n regions hold beyond their places. */
  function Slack(e: seq<nat>, n: nat): nat
    requires n <= |e|
    decreases n
  {
    if n == 0 then 0 else Slack(e, n - 1) + e[n - 1]
  }

  /** Only finally parts have any: none above the marker if they are reached normally, one for an
      exception, two for a return. */
  predicate Admits(rs: seq<Region>, e: seq<nat>) {
    |e| == |rs| && forall j :: 0 <= j < |rs| ==> e[j] <= if rs[j].InTry? && rs[j].phase.Finishing? then 2 else 0
  }

  lemma {:induction false} SlackPrefix(e: seq<nat>, f: seq<nat>, n: nat)
    requires n <= |e| && n <= |f| && e[..n] == f[..n]
    ensures Slack(e, n) == Slack(f, n)
    decreases n
  {
    if n > 0 {
      assert e[..n - 1] == e[..n][..n - 1] && f[..n - 1] == f[..n][..n - 1] && e[n - 1] == e[..n][n - 1] && f[n - 1] == f[..n][n - 1];
      SlackPrefix(e, f, n - 1);
    }
  }

  // ----- states -----

  predicate Known(p: seq<Line>, l: Label) {
    IndexOf(p, l) < |p|
  }

  /** Block b is that of region r, entered with x operands more than its place says. */
  predicate Matches(p: seq<Line>, r: Region, b: Block, x: nat) {
    match r
    case InLoop(end, orElse, depth) =>
      && b.LoopBlock? && b.depth == depth + x && b.end == Addr(p, end) && Known(p, end)
      && b.orElse == (if orElse.Some? then Addr(p, orElse.value) else 0) && (orElse.Some? ==> Known(p, orElse.value))
    case InTry(onCatch, onFinally, endFinally, depth, _) =>
      && b.ExceptBlock? && b.depth == depth + x && b.onCatch == Addr(p, onCatch) && Known(p, onCatch)
      && b.onFinally == Addr(p, onFinally) && Known(p, onFinally) && b.endFinally == Addr(p, endFinally)
  }

  predicate Regional(p: seq<Line>, rs: seq<Region>, e: seq<nat>, c: Vm) {
    && |c.blocks| == |rs| && Admits(rs, e)
    && forall j :: 0 <= j < |rs| ==> Matches(p, rs[j], c.blocks[j], Slack(e, j))
  }

  /** The operand stack holds what the region has there, above `depth` values: the marker of a try, the
      exception that its catches are matched with, and what its finally part still has to do. */
  predicate HeldAt(r: Region, depth: nat, x: nat, stack: seq<Value>) {
    && depth + Own(r) + x <= |stack|
    && (r.InTry? ==> stack[depth] == Num(REASON_FINALLY))
    && (r.InTry? && (r.phase.Matching? || x == 1) ==> !stack[depth + 1].Num?)
    && (r.InTry? && x == 2 ==> stack[depth + 2] == Num(REASON_RETURN))
  }

  /** This is so for the first n regions. */
  predicate HeldUpTo(rs: seq<Region>, e: seq<nat>, c: Vm, n: nat)
    requires n <= |rs| && n <= |e| && n <= |c.blocks|
  {
    forall j :: 0 <= j < n ==> HeldAt(rs[j], c.blocks[j].depth, e[j], c.stack)
  }

  /** How much of the stack belongs to a region and what surrounds it. */
  function Ground(r: Region, b: Block, x: nat): nat {
    b.depth + Own(r) + x
  }

  function GroundOf(rs: seq<Region>, e: seq<nat>, c: Vm): nat
    requires |rs| == |e| == |c.blocks|
  {
    var j := |rs| - 1;
    if rs == [] then 0 else Ground(rs[j], c.blocks[j], e[j])
  }

  /** The stacks have these regions on them. */
  predicate Within(p: seq<Line>, rs: seq<Region>, e: seq<nat>, c: Vm) {
    Regional(p, rs, e, c) && HeldUpTo(rs, e, c, |rs|)
  }

  /** The machine is where a line that stands at place a is entered. */
  predicate Agrees(p: seq<Line>, a: Place, e: seq<nat>, c: Vm) {
    Within(p, a.regions, e, c) && |c.stack| == a.depth + Slack(e, |e|)
  }

  /** The run is about to execute line k. */
  predicate AtLine(z: Chart, k: nat, e: seq<nat>, c: Vm) {
    && c.reason == REASON_NONE && k <= |z.p| && c.ip == Off(z.p, k)
    && PlaceBy(z, k).Some? && Agrees(z.p, PlaceBy(z, k).value, e, c)
  }

  /** A reason has come up in code that stands at place a. */
  predicate Interrupted(z: Chart, a: Place, e: seq<nat>, c: Vm) {
    Sane(z.env, a.regions) && Within(z.p, a.regions, e, c)
  }

  predicate InnerLoop(a: Place) {
    a.regions != [] && a.regions[|a.regions| - 1].InLoop?
  }

  predicate InnerTry(a: Place) {
    a.regions != [] && a.regions[|a.regions| - 1].InTry?
  }

  function Inner(a: Place): Region
    requires a.regions != []
  {
    a.regions[|a.regions| - 1]
  }

  /** An exception is never a number. */
  predicate Pitched(c: Vm) {
    c.exc.Some? && !c.exc.value.Num?
  }

  ghost predicate Waits(z: Chart, a: Place, e: seq<nat>, c: Vm) {
    || (Interrupted(z, a, e, c) && c.reason == REASON_EXCEPTION && Pitched(c))
    || (Interrupted(z, a, e, c) && c.reason == REASON_BREAK)
    || (Interrupted(z, a, e, c) && c.reason == REASON_BREAKELSE && (InnerLoop(a) ==> Inner(a).orElse.Some?))
    || (Interrupted(z, a, e, c) && c.reason == REASON_CONTINUE && (InnerLoop(a) ==> |c.stack| == a.depth + Slack(e, |e|) && GoesOn(z, a, c)))
    || (Interrupted(z, a, e, c) && c.reason == REASON_RETURN && c.ret.Some?
        && (InnerTry(a) ==> if Inner(a).phase.Finishing? then c.ip > Addr(z.p, Inner(a).onFinally)
                            else Inner(a).phase.Trying? && |c.stack| == GroundOf(a.regions, e, c)))
    || (c.reason == REASON_FINALLY && Leaving(z, a, e, c))
    || (Interrupted(z, a, e, c) && c.reason == REASON_RERAISE)
  }

  /** A continue has its target at the same place. */
  ghost predicate GoesOn(z: Chart, a: Place, c: Vm) {
    exists l :: Known(z.p, l) && PlaceAt(z.env, l) == a && c.ret == Some(Num(Addr(z.p, l)))
  }

  /** END_FINALLY has taken the marker, and the line behind it stands outside the try. */
  ghost predicate Leaving(z: Chart, a: Place, e: seq<nat>, c: Vm) {
    && InnerTry(a) && Sane(z.env, a.regions) && Regional(z.p, a.regions, e, c) && HeldUpTo(a.regions, e, c, |a.regions| - 1)
    && c.blocks[|c.blocks| - 1].depth <= |c.stack|
    && exists k: nat :: k <= |z.p| && c.ip == Off(z.p, k) && PlaceBy(z, k) == Some(Outside(a, Inner(a).depth))
  }

  /** What holds in every state of a run. */
  ghost predicate Fair(z: Chart, c: Vm) {
    || !c.status.Running?
    || Stuck(c, z.size)
    || (c.reason == REASON_NONE && exists k: nat, e :: AtLine(z, k, e, c))
    || (c.reason != REASON_NONE && exists a, e :: Waits(z, a, e, c))
  }

  // ----- lines -----

  lemma {:induction false} LinesOk(env: Env, done: set<Label>, code: seq<Line>, t: Option<Place>, u: Option<Place>, p: seq<Line>, i: nat, k: nat)
    requires Typed(env, done, code, t, u) && i <= |p| && code == p[i..] && i <= k < |p|
    requires t == PlaceOfLine(env, p, i) && done == LabelsBefore(p, i)
    ensures LineOk(env, LabelsBefore(p, k), p[k], PlaceOfLine(env, p, k))
    decreases k - i
  {
    hide LineOk, Flow;
    assert code[0] == p[i] && code[1..] == p[i + 1..];
    if i < k { LinesOk(env, Passed(code[0], done), code[1..], Flow(env, code[0], t), u, p, i + 1, k); }
  }

  lemma LineIsOk(z: Chart, k: nat)
    requires Charted(z) && k < |z.p|
    ensures LineOk(z.env, LabelsBefore(z.p, k), z.p[k], PlaceBy(z, k))
  {
    hide LineOk;
    var u :| Typed(z.env, {}, z.p, Some(Start), u);
    assert z.p[0..] == z.p;
    LinesOk(z.env, {}, z.p, Some(Start), u, z.p, 0, k);
  }

  /** A jump to a label arrives behind it, at its place. */
  lemma Lands(z: Chart, l: Label)
    requires Known(z.p, l)
    ensures var k := IndexOf(z.p, l) + 1; k <= |z.p| && Addr(z.p, l) == Off(z.p, k) && PlaceBy(z, k) == Some(PlaceAt(z.env, l))
  {
    hide PlaceAt;
    assert z.p[IndexOf(z.p, l)] == Lab(l);
  }

  lemma {:induction false} BeforeIndex(p: seq<Line>, l: Label, k: nat)
    requires k <= |p| && l in LabelsBefore(p, k)
    ensures IndexOf(p, l) < k
    decreases k
  {
    if l in LabelsBefore(p, k - 1) {
      BeforeIndex(p, l, k - 1);
    } else {
      FirstIndex(p, l, k - 1);
    }
  }

  lemma {:induction false} FirstIndex(p: seq<Line>, l: Label, k: nat)
    requires k < |p| && p[k] == Lab(l)
    ensures IndexOf(p, l) <= k
  {
    if k > 0 && p[0] != Lab(l) { FirstIndex(p[1..], l, k - 1); }
  }

  lemma {:induction false} DefinedKnown(p: seq<Line>, l: Label)
    requires Count(p, l) >= 1
    ensures Known(p, l)
  {
    if p[0] != Lab(l) { DefinedKnown(p[1..], l); }
  }

  /** The labels that line k refers to are defined. */
  lemma Refers(z: Chart, k: nat, l: Label)
    requires Linkable(z.p) && k < |z.p| && z.p[k].Code? && (Relative(z.p[k].i, l) || Absolute(z.p[k].i, l))
    ensures Known(z.p, l)
  {
    if Absolute(z.p[k].i, l) { DefinedKnown(z.p, l); }
  }

  // ----- regions -----

  lemma SaneStep(env: Env, rs: seq<Region>, j: nat)
    requires Sane(env, rs) && 0 < j < |rs|
    ensures Base(rs[j - 1]) <= rs[j].depth
  {
    hide PlaceAt;
    assert SaneAt(env, rs, j);
  }

  lemma GroundAt(p: seq<Line>, rs: seq<Region>, e: seq<nat>, c: Vm, j: nat)
    requires Regional(p, rs, e, c) && j < |rs|
    ensures c.blocks[j].depth == rs[j].depth + Slack(e, j)
    ensures Ground(rs[j], c.blocks[j], e[j]) == Base(rs[j]) + Slack(e, j + 1)
  {
    hide Known, Addr;
    assert Matches(p, rs[j], c.blocks[j], Slack(e, j));
  }

  /** The grounds of the regions rise, so nothing below that of the innermost one is in reach. */
  lemma {:induction false} Rising(env: Env, p: seq<Line>, rs: seq<Region>, e: seq<nat>, c: Vm, i: nat, j: nat)
    requires Sane(env, rs) && Regional(p, rs, e, c) && i < j < |rs|
    ensures Ground(rs[i], c.blocks[i], e[i]) <= c.blocks[j].depth
    decreases j
  {
    hide Sane, Regional, Slack;
    SameLength(p, rs, e, c);
    SaneStep(env, rs, j);
    GroundAt(p, rs, e, c, j - 1);
    GroundAt(p, rs, e, c, j);
    if i < j - 1 { Rising(env, p, rs, e, c, i, j - 1); }
  }

  lemma SameLength(p: seq<Line>, rs: seq<Region>, e: seq<nat>, c: Vm)
    requires Regional(p, rs, e, c)
    ensures |c.blocks| == |rs| == |e|
  {
  }

  /** What the first n regions hold survives whatever leaves the stack alone up to the ground of the last
      one of them. */
  lemma KeepsHeld(env: Env, p: seq<Line>, rs: seq<Region>, e: seq<nat>, c: Vm, n: nat, d: Vm)
    requires Sane(env, rs) && Regional(p, rs, e, c) && n <= |rs| && HeldUpTo(rs, e, c, n) && n <= |d.blocks| && d.blocks[..n] == c.blocks[..n]
    requires n > 0 ==> var g := Ground(rs[n - 1], c.blocks[n - 1], e[n - 1]); g <= |c.stack| && c.stack[..g] <= d.stack
    ensures HeldUpTo(rs, e, d, n)
  {
    hide Sane, Regional, HeldAt;
    SameLength(p, rs, e, c);
    forall j | 0 <= j < n ensures HeldAt(rs[j], d.blocks[j].depth, e[j], d.stack) {
      assert d.blocks[j] == d.blocks[..n][j] == c.blocks[..n][j];
      if j < n - 1 { Rising(env, p, rs, e, c, j, n - 1); }
      HeldPrefix(rs[j], c.blocks[j].depth, e[j], c.stack, d.stack, Ground(rs[n - 1], c.blocks[n - 1], e[n - 1]));
    }
  }

  lemma HeldPrefix(r: Region, depth: nat, x: nat, s: seq<Value>, t: seq<Value>, g: nat)
    requires HeldAt(r, depth, x, s) && depth + Own(r) + x <= g <= |s| && s[..g] <= t
    ensures HeldAt(r, depth, x, t)
  {
    assert forall i :: 0 <= i < g ==> s[..g][i] == s[i] == t[i];
  }

  // ----- instructions -----

  /** Instructions that only work on the operand stack, and go on to the next line. */
  predicate Plain<T>(i: Instr<T>) {
    i.LoadConst? || i.LoadId? || i.StoreId? || i.Operate? || i.Compare? || i.CompareEx? || i.PopTop? || i.DupTop?
    || i.PackTuple? || i.UnpackTuple? || i.Throw?
  }

  /** By how much the stack grows. */
  function Effect<T>(i: Instr<T>): int {
    match i
    case LoadConst(_) => 1
    case LoadId(_) => 1
    case DupTop => 1
    case PackTuple(n) => 1 - n
    case UnpackTuple(n) => n - 1
    case _ => -1
  }

  function Removes<T>(i: Instr<T>): nat {
    if i.DupTop? then 0 else Needs(i)
  }

  lemma {:induction false} PushAllRuns(c: Vm, vs: seq<Value>, size: nat)
    requires PushAll(c, vs, size).status.Running?
    ensures PushAll(c, vs, size) == c.(stack := c.stack + vs)
    decreases |vs|
  {
    if vs == [] {
      assert c.stack + vs == c.stack;
    } else {
      if c.status.Running? { PushAllRuns(Push(c, vs[0], size), vs[1..], size); }
      assert c.stack + [vs[0]] + vs[1..] == c.stack + vs;
    }
  }

  /** What a plain instruction does if the process goes on: its effect, or an exception, and in either
      case the stack is untouched below its operands. */
  predicate Done(i: Instr<nat>, c: Vm, d: Vm) {
    && d.blocks == c.blocks && Removes(i) <= |c.stack| && c.stack[..|c.stack| - Removes(i)] <= d.stack
    && if d.reason == REASON_NONE then d.ip == c.ip && |d.stack| == |c.stack| + Effect(i) && !i.Throw?
       else d.reason == REASON_EXCEPTION && Pitched(d)
  }

  lemma PlainStep(w: World, size: nat, i: Instr<nat>, c: Vm)
    requires Plain(i) && Needs(i) <= |c.stack| && c.status.Running? && c.reason == REASON_NONE
    ensures var d := ExecInstr(w, size, i, c); d.status.Running? ==> Done(i, c, d)
  {
    hide PushAll;
    if i.UnpackTuple? && Top(c).Tuple? {
      var vs := Padded(Top(c).items, i.n);
      if ExecInstr(w, size, i, c).status.Running? { PushAllRuns(Drop(c, 1), vs, size); }
    }
  }

  /** The place behind a plain instruction. */
  lemma PlainNext(env: Env, done: set<Label>, i: Instr<Label>, a: Place)
    requires Plain(i) && Checks(env, done, i, a) && !(OnException(a) && (i.StoreId? || i.PopTop?))
    ensures Next(i, a) == Some(a.(depth := a.depth + Effect(i))) && BaseOf(a) + Removes(i) <= a.depth && Needs(i) <= a.depth
  {
    hide Sane, PlaceAt;
  }

  // ----- states after a step -----

  /** The run is about to execute instruction i, line k, at place a. */
  ghost predicate Executes(z: Chart, k: nat, e: seq<nat>, c: Vm, i: Instr<Label>, a: Place) {
    && Charted(z) && k < |z.p| && z.p[k] == Code(i) && c.status.Running? && c.reason == REASON_NONE
    && PlaceBy(z, k) == Some(a) && Agrees(z.p, a, e, c) && Checks(z.env, LabelsBefore(z.p, k), i, a)
    && c.ip == Off(z.p, k + 1)
  }

  lemma PlaceBehind(z: Chart, k: nat, e: seq<nat>, c: Vm, i: Instr<Label>, a: Place)
    requires Executes(z, k, e, c, i, a)
    ensures PlaceBy(z, k + 1) == Next(i, a)
  {
    hide Checks, Agrees, Next;
  }

  /** The ground of a place, in terms of the stack. */
  lemma GroundIs(p: seq<Line>, a: Place, e: seq<nat>, c: Vm)
    requires Regional(p, a.regions, e, c)
    ensures |a.regions| == |e| == |c.blocks| && GroundOf(a.regions, e, c) == BaseOf(a) + Slack(e, |e|)
  {
    hide Matches;
    SameLength(p, a.regions, e, c);
    if a.regions != [] { GroundAt(p, a.regions, e, c, |a.regions| - 1); }
  }

  /** A step that leaves the blocks alone, and the stack up to the ground. */
  lemma StaysWithin(z: Chart, rs: seq<Region>, e: seq<nat>, c: Vm, d: Vm)
    requires Sane(z.env, rs) && Within(z.p, rs, e, c) && d.blocks == c.blocks
    requires |rs| == |e| == |c.blocks|
    requires GroundOf(rs, e, c) <= |c.stack| && c.stack[..GroundOf(rs, e, c)] <= d.stack
    ensures Within(z.p, rs, e, d)
  {
    hide Sane, Matches, HeldAt;
    KeepsHeld(z.env, z.p, rs, e, c, |rs|, d);
  }

  lemma ChecksSane(env: Env, done: set<Label>, i: Instr<Label>, a: Place)
    requires Checks(env, done, i, a)
    ensures Sane(env, a.regions)
  {
  }

  lemma PlainResolve(p: seq<Line>, i: Instr<Label>)
    requires Plain(i)
    ensures var j := Resolve(p, i); Plain(j) && Effect(j) == Effect(i) && Removes(j) == Removes(i) && Needs(j) == Needs(i) && j.Throw? == i.Throw?
  {
  }

  lemma Prefixes(s: seq<Value>, m: nat, n: nat, t: seq<Value>)
    requires m <= n <= |s| && s[..n] <= t
    ensures s[..m] <= t
  {
    assert s[..m] == s[..n][..m];
  }

  lemma PlainFair(z: Chart, k: nat, e: seq<nat>, c: Vm, i: Instr<Label>, a: Place)
    requires Executes(z, k, e, c, i, a) && Plain(i) && !(OnException(a) && (i.StoreId? || i.PopTop?))
    ensures Fair(z, ExecInstr(z.w, z.size, Resolve(z.p, i), c))
  {
    hide Checks, Within, ExecInstr, Next, Stuck, Sane, OnException, Resolve;
    var d, done := ExecInstr(z.w, z.size, Resolve(z.p, i), c), LabelsBefore(z.p, k);
    if d.status.Running? {
      assert |c.stack| == a.depth + Slack(e, |e|) && Within(z.p, a.regions, e, c);
      PlainResolve(z.p, i);
      PlainNext(z.env, done, i, a);
      PlainStep(z.w, z.size, Resolve(z.p, i), c);
      PlaceBehind(z, k, e, c, i, a);
      ChecksSane(z.env, done, i, a);
      WithinRegional(z.p, a.regions, e, c);
      GroundIs(z.p, a, e, c);
      Prefixes(c.stack, GroundOf(a.regions, e, c), |c.stack| - Removes(i), d.stack);
      StaysWithin(z, a.regions, e, c, d);
      if d.reason == REASON_NONE {
        assert AtLine(z, k + 1, e, d);
      } else {
        assert Waits(z, a, e, d);
      }
    }
  }

  lemma WithinRegional(p: seq<Line>, rs: seq<Region>, e: seq<nat>, c: Vm)
    requires Within(p, rs, e, c)
    ensures Regional(p, rs, e, c)
  {
  }

  lemma PhaseMatches(p: seq<Line>, rs: seq<Region>, e: seq<nat>, c: Vm, q: Phase, x: nat)
    requires rs != [] && rs[|rs| - 1].InTry? && Regional(p, rs, e, c) && x <= (if q.Finishing? then 2 else 0)
    ensures Regional(p, rs[..|rs| - 1] + [rs[|rs| - 1].(phase := q)], e[..|rs| - 1] + [x], c)
  {
    hide Matches, Slack;
    var n := |rs| - 1;
    var rs2, e2 := rs[..n] + [rs[n].(phase := q)], e[..n] + [x];
    forall j | 0 <= j < |rs2| ensures Matches(p, rs2[j], c.blocks[j], Slack(e2, j)) {
      assert e2[..j] == e[..j];
      SlackPrefix(e, e2, j);
      assert Matches(p, rs[j], c.blocks[j], Slack(e, j));
      PhaseMatch(p, rs[j], c.blocks[j], Slack(e, j), q);
    }
  }

  lemma PhaseMatch(p: seq<Line>, r: Region, b: Block, x: nat, q: Phase)
    requires Matches(p, r, b, x)
    ensures r.InTry? ==> Matches(p, r.(phase := q), b, x)
  {
  }

  /** The innermost try goes over to another phase. */
  lemma PhaseChange(z: Chart, rs: seq<Region>, e: seq<nat>, c: Vm, q: Phase, x: nat, d: Vm)
    requires rs != [] && rs[|rs| - 1].InTry? && Sane(z.env, rs) && Regional(z.p, rs, e, c) && HeldUpTo(rs, e, c, |rs| - 1)
    requires d.blocks == c.blocks && x <= (if q.Finishing? then 2 else 0)
    requires c.blocks[|rs| - 1].depth <= |c.stack| && c.stack[..c.blocks[|rs| - 1].depth] <= d.stack
    requires HeldAt(rs[|rs| - 1].(phase := q), c.blocks[|rs| - 1].depth, x, d.stack)
    ensures Within(z.p, rs[..|rs| - 1] + [rs[|rs| - 1].(phase := q)], e[..|rs| - 1] + [x], d)
  {
    hide Sane, HeldAt, Regional;
    SameLength(z.p, rs, e, c);
    var n := |rs| - 1;
    var rs2, e2 := rs[..n] + [rs[n].(phase := q)], e[..n] + [x];
    if n > 0 {
      Rising(z.env, z.p, rs, e, c, n - 1, n);
      Prefixes(c.stack, Ground(rs[n - 1], c.blocks[n - 1], e[n - 1]), c.blocks[n].depth, d.stack);
    }
    KeepsHeld(z.env, z.p, rs, e, c, n, d);
    PhaseMatches(z.p, rs, e, c, q, x);
    SameRegions(z.p, rs2, e2, c, d);
    forall j | 0 <= j < |rs2| ensures HeldAt(rs2[j], d.blocks[j].depth, e2[j], d.stack) {
      assert j < n ==> HeldAt(rs[j], d.blocks[j].depth, e[j], d.stack);
    }
  }

  lemma SameRegions(p: seq<Line>, rs: seq<Region>, e: seq<nat>, c: Vm, d: Vm)
    requires Regional(p, rs, e, c) && d.blocks == c.blocks
    ensures Regional(p, rs, e, d)
  {
    hide Matches;
  }

  lemma SlackSplit(e: seq<nat>, f: seq<nat>)
    requires e != [] && f != [] && |e| == |f| && e[..|e| - 1] == f[..|f| - 1]
    ensures Slack(f, |f|) + e[|e| - 1] == Slack(e, |e|) + f[|f| - 1]
  {
    SlackPrefix(e, f, |e| - 1);
  }

  /** A handler stores the exception, or it is dropped. */
  lemma TakenFair(z: Chart, k: nat, e: seq<nat>, c: Vm, i: Instr<Label>, a: Place)
    requires Executes(z, k, e, c, i, a) && (i.StoreId? || i.PopTop?) && OnException(a)
    ensures Fair(z, ExecInstr(z.w, z.size, Resolve(z.p, i), c))
  {
    hide Checks, Stuck, Sane, Regional, Known, Addr, HeldAt, Slack;
    var d, n := ExecInstr(z.w, z.size, Resolve(z.p, i), c), |a.regions| - 1;
    if d.status.Running? {
      ChecksSane(z.env, LabelsBefore(z.p, k), i, a);
      GroundIs(z.p, a, e, c);
      NoSlack(z.p, a.regions, e, c);
      assert HeldAt(a.regions[n], c.blocks[n].depth, e[n], c.stack);
      AfterTaking(a.regions[n], c.blocks[n].depth, c.stack);
      assert a.depth + Slack(e, |e|) == c.blocks[n].depth + 2;
      PhaseChange(z, a.regions, e, c, Trying, 0, d);
      PlaceBehind(z, k, e, c, i, a);
      assert e[..n] + [0] == e;
      assert AtLine(z, k + 1, e, d);
    }
  }

  lemma NoSlack(p: seq<Line>, rs: seq<Region>, e: seq<nat>, c: Vm)
    requires rs != [] && Regional(p, rs, e, c) && !(rs[|rs| - 1].InTry? && rs[|rs| - 1].phase.Finishing?)
    ensures |e| == |rs| && e[|e| - 1] == 0
  {
    hide Matches;
  }

  lemma AfterTaking(r: Region, depth: nat, s: seq<Value>)
    requires r.InTry? && r.phase.Matching? && HeldAt(r, depth, 0, s)
    ensures |s| >= depth + 2
    ensures |s| == depth + 2 ==> HeldAt(r.(phase := Trying), depth, 0, s[..|s| - 1]) && s[..depth] <= s[..|s| - 1]
  {
  }

  // ----- jumps -----

  lemma ToLine(z: Chart, k: nat, e: seq<nat>, a: Place, c: Vm)
    requires k <= |z.p| && PlaceBy(z, k) == Some(a) && Agrees(z.p, a, e, c) && c.reason == REASON_NONE && c.ip == Off(z.p, k)
    ensures Fair(z, c)
  {
    hide Agrees;
    assert AtLine(z, k, e, c);
  }

  lemma ToLabel(z: Chart, l: Label, e: seq<nat>, c: Vm)
    requires Known(z.p, l) && Agrees(z.p, PlaceAt(z.env, l), e, c) && c.reason == REASON_NONE && c.ip == Addr(z.p, l)
    ensures Fair(z, c)
  {
    hide Agrees, PlaceAt, Addr, Known, Fair;
    Lands(z, l);
    ToLine(z, IndexOf(z.p, l) + 1, e, PlaceAt(z.env, l), c);
  }

  lemma SameAgrees(p: seq<Line>, a: Place, e: seq<nat>, c: Vm, d: Vm)
    requires Agrees(p, a, e, c) && d.stack == c.stack && d.blocks == c.blocks
    ensures Agrees(p, a, e, d)
  {
    hide Matches, HeldAt;
  }

  lemma Stopped(z: Chart, c: Vm)
    requires !c.status.Running?
    ensures Fair(z, c)
  {
  }

  predicate Jump<T>(i: Instr<T>) {
    i.JumpAbsolute? || i.JumpIfTrue? || i.JumpIfFalse? || i.JumpIfFirstFalse?
  }

  /** A jump changes nothing but where the run goes on, and a loop's mark. */
  lemma JumpStep(w: World, size: nat, p: seq<Line>, i: Instr<Label>, c: Vm)
    requires Jump(i) && c.status.Running?
    ensures var d := ExecInstr(w, size, Resolve(p, i), c); d.status.Running? ==>
              && d.stack == c.stack && d.reason == c.reason
              && (d.ip == Addr(p, i.to) || (d.ip == c.ip && !i.JumpAbsolute?))
              && if i.JumpIfFirstFalse? then
                   c.blocks != [] && var last := |c.blocks| - 1; d.blocks == c.blocks[last := c.blocks[last].(visited := true)]
                 else d.blocks == c.blocks
  {
    hide Addr, Truth;
  }

  lemma ChecksJump(env: Env, done: set<Label>, i: Instr<Label>, a: Place)
    requires Checks(env, done, i, a) && Jump(i)
    ensures PlaceAt(env, i.to) == a && (!i.JumpAbsolute? ==> Next(i, a) == Some(a))
  {
    hide PlaceAt, Sane;
  }

  lemma JumpFair(z: Chart, k: nat, e: seq<nat>, c: Vm, i: Instr<Label>, a: Place)
    requires Executes(z, k, e, c, i, a) && Jump(i)
    ensures Fair(z, ExecInstr(z.w, z.size, Resolve(z.p, i), c))
  {
    hide Agrees, PlaceAt, Known, Addr, Fair, ExecInstr, Resolve, Checks, Next;
    var d := ExecInstr(z.w, z.size, Resolve(z.p, i), c);
    if d.status.Running? {
      Refers(z, k, i.to);
      PlaceBehind(z, k, e, c, i, a);
      ChecksJump(z.env, LabelsBefore(z.p, k), i, a);
      JumpStep(z.w, z.size, z.p, i, c);
      if i.JumpIfFirstFalse? { Visiting(z.p, a, e, c, d); } else { SameAgrees(z.p, a, e, c, d); }
      if d.ip == Addr(z.p, i.to) { ToLabel(z, i.to, e, d); } else { ToLine(z, k + 1, e, a, d); }
    } else {
      Stopped(z, d);
    }
  }

  /** A loop remembers that it has been tested. */
  lemma Visiting(p: seq<Line>, a: Place, e: seq<nat>, c: Vm, d: Vm)
    requires Agrees(p, a, e, c) && d.stack == c.stack && c.blocks != []
    requires var last := |c.blocks| - 1; d.blocks == c.blocks[last := c.blocks[last].(visited := true)]
    ensures Agrees(p, a, e, d)
  {
    hide HeldAt, Known, Addr;
  }

  /** The finally part begins, above an exception that no catch has taken, if there is one. */
  lemma JoinFair(z: Chart, k: nat, e: seq<nat>, c: Vm, i: Instr<Label>, a: Place)
    requires Executes(z, k, e, c, i, a) && i.JumpForward?
    ensures Fair(z, ExecInstr(z.w, z.size, Resolve(z.p, i), c))
  {
    hide Within, PlaceAt, Known, Addr, Sane, Fair, Checks, Regional, Slack;
    var d, b := ExecInstr(z.w, z.size, Resolve(z.p, i), c), PlaceAt(z.env, i.to);
    Refers(z, k, i.to);
    ChecksJoin(z.env, LabelsBefore(z.p, k), i, a);
    if a == b {
      SameAgrees(z.p, a, e, c, d);
      ToLabel(z, i.to, e, d);
    } else {
      WithinRegional(z.p, a.regions, e, c);
      GroundIs(z.p, a, e, c);
      NoSlack(z.p, a.regions, e, c);
      var n, x := |a.regions| - 1, if Inner(a).phase.Matching? then 1 else 0;
      var f := e[..n] + [x];
      Joining(z.p, a, e, c, x);
      HeldBefore(z.p, a.regions, e, c);
      PhaseChange(z, a.regions, e, c, Finishing, x, d);
      assert b.regions == a.regions[..n] + [Inner(a).(phase := Finishing)];
      SlackSplit(e, f);
      ToLabel(z, i.to, f, d);
    }
  }

  lemma ChecksJoin(env: Env, done: set<Label>, i: Instr<Label>, a: Place)
    requires Checks(env, done, i, a) && i.JumpForward?
    ensures Joins(a, PlaceAt(env, i.to)) && Sane(env, a.regions)
  {
    hide PlaceAt, Sane;
  }

  lemma HeldBefore(p: seq<Line>, rs: seq<Region>, e: seq<nat>, c: Vm)
    requires Within(p, rs, e, c) && rs != []
    ensures |rs| == |e| == |c.blocks| && HeldUpTo(rs, e, c, |rs| - 1) && c.blocks[|rs| - 1].depth <= |c.stack|
    ensures HeldAt(rs[|rs| - 1], c.blocks[|rs| - 1].depth, e[|rs| - 1], c.stack)
  {
    hide Matches;
    assert HeldAt(rs[|rs| - 1], c.blocks[|rs| - 1].depth, e[|rs| - 1], c.stack);
  }

  lemma Joining(p: seq<Line>, a: Place, e: seq<nat>, c: Vm, x: nat)
    requires Within(p, a.regions, e, c) && InnerTry(a) && !Inner(a).phase.Finishing? && x == if Inner(a).phase.Matching? then 1 else 0
    ensures |a.regions| == |c.blocks| && HeldAt(Inner(a).(phase := Finishing), c.blocks[|a.regions| - 1].depth, x, c.stack)
  {
    hide Matches;
    HeldBefore(p, a.regions, e, c);
  }

  // ----- blocks -----

  /** The region that a setup opens. */
  function Opened(i: Instr<Label>, a: Place): Region
    requires i.SetupLoop? || i.SetupElseLoop? || i.SetupExcept?
  {
    match i
    case SetupLoop(end) => InLoop(end, None, a.depth)
    case SetupElseLoop(end, orElse) => InLoop(end, Some(orElse), a.depth)
    case SetupExcept(c, f, q) => InTry(c, f, q, a.depth, Trying)
  }

  lemma OpensNext(i: Instr<Label>, a: Place)
    requires i.SetupLoop? || i.SetupElseLoop? || i.SetupExcept?
    ensures Next(i, a) == Some(Inside(a, Opened(i, a)))
  {
  }

  lemma OpensBlock(z: Chart, k: nat, i: Instr<Label>, a: Place, c: Vm)
    requires i.SetupLoop? || i.SetupElseLoop? || i.SetupExcept?
    requires Linkable(z.p) && k < |z.p| && z.p[k] == Code(i) && a.depth <= |c.stack| && c.status.Running?
    ensures var d, r := ExecInstr(z.w, z.size, Resolve(z.p, i), c), Opened(i, a);
            d.status.Running? ==>
              && |d.blocks| == |c.blocks| + 1 && d.blocks[..|c.blocks|] == c.blocks && d.reason == c.reason && d.ip == c.ip
              && Matches(z.p, r, d.blocks[|c.blocks|], |c.stack| - a.depth)
              && d.stack == if r.InTry? then c.stack + [Num(REASON_FINALLY)] else c.stack
  {
    hide Known, Addr, Linkable;
    if i.SetupExcept? {
      Refers(z, k, i.onCatch);
      Refers(z, k, i.onFinally);
    } else {
      Refers(z, k, i.end);
      if i.SetupElseLoop? { Refers(z, k, i.orElse); }
    }
  }

  lemma OpensFair(z: Chart, k: nat, e: seq<nat>, c: Vm, i: Instr<Label>, a: Place)
    requires Executes(z, k, e, c, i, a) && (i.SetupLoop? || i.SetupElseLoop? || i.SetupExcept?)
    ensures Fair(z, ExecInstr(z.w, z.size, Resolve(z.p, i), c))
  {
    hide Within, Checks, PlaceAt, Matches, Fair, ExecInstr, Resolve, Next, Opened, Inside, Slack;
    var d, r := ExecInstr(z.w, z.size, Resolve(z.p, i), c), Opened(i, a);
    if d.status.Running? {
      PlaceBehind(z, k, e, c, i, a);
      OpensNext(i, a);
      OpensBlock(z, k, i, a, c);
      OpensAt(i, a);
      Opening(z.p, a, e, c, r, d);
      ToLine(z, k + 1, e + [0], Inside(a, r), d);
    } else {
      Stopped(z, d);
    }
  }

  lemma OpensAt(i: Instr<Label>, a: Place)
    requires i.SetupLoop? || i.SetupElseLoop? || i.SetupExcept?
    ensures var r := Opened(i, a); r.depth == a.depth && (r.InTry? ==> r.phase.Trying?)
  {
  }

  /** One more block, and its marker if it is that of a try. */
  lemma Opening(p: seq<Line>, a: Place, e: seq<nat>, c: Vm, r: Region, d: Vm)
    requires Agrees(p, a, e, c) && r.depth == a.depth && (r.InTry? ==> r.phase.Trying?)
    requires |d.blocks| == |c.blocks| + 1 && d.blocks[..|c.blocks|] == c.blocks && Matches(p, r, d.blocks[|c.blocks|], |c.stack| - a.depth)
    requires d.stack == if r.InTry? then c.stack + [Num(REASON_FINALLY)] else c.stack
    ensures Agrees(p, Inside(a, r), e + [0], d)
  {
    hide Matches, HeldAt, Slack;
    var f := e + [0];
    assert f[..|e|] == e;
    SlackPrefix(e, f, |e|);
    SlackLast(f);
    forall j | 0 <= j <= |c.blocks| ensures Matches(p, (a.regions + [r])[j], d.blocks[j], Slack(f, j)) && HeldAt((a.regions + [r])[j], d.blocks[j].depth, f[j], d.stack) {
      OpeningAt(p, a, e, c, r, d, j);
    }
  }

  lemma SlackLast(e: seq<nat>)
    requires e != [] && e[|e| - 1] == 0
    ensures Slack(e, |e|) == Slack(e, |e| - 1)
  {
  }

  lemma OpeningAt(p: seq<Line>, a: Place, e: seq<nat>, c: Vm, r: Region, d: Vm, j: nat)
    requires Agrees(p, a, e, c) && r.depth == a.depth && (r.InTry? ==> r.phase.Trying?) && j <= |c.blocks|
    requires |d.blocks| == |c.blocks| + 1 && d.blocks[..|c.blocks|] == c.blocks && Matches(p, r, d.blocks[|c.blocks|], |c.stack| - a.depth)
    requires d.stack == if r.InTry? then c.stack + [Num(REASON_FINALLY)] else c.stack
    ensures |e| == |a.regions| == |c.blocks|
    ensures Matches(p, (a.regions + [r])[j], d.blocks[j], Slack(e + [0], j)) && HeldAt((a.regions + [r])[j], d.blocks[j].depth, (e + [0])[j], d.stack)
  {
    hide Matches, HeldAt, Slack;
    var f := e + [0];
    assert f[..j] == e[..j];
    SlackPrefix(e, f, j);
    if j < |c.blocks| {
      assert d.blocks[j] == d.blocks[..|c.blocks|][j];
      HeldMore(a.regions[j], c.blocks[j].depth, e[j], c.stack, d.stack);
    } else {
      NewHeld(p, r, d.blocks[j], |c.stack| - a.depth, d.stack);
    }
  }

  lemma HeldMore(r: Region, depth: nat, x: nat, s: seq<Value>, t: seq<Value>)
    requires HeldAt(r, depth, x, s) && s <= t
    ensures HeldAt(r, depth, x, t)
  {
  }

  lemma NewHeld(p: seq<Line>, r: Region, b: Block, x: nat, s: seq<Value>)
    requires Matches(p, r, b, x) && (r.InTry? ==> r.phase.Trying?) && |s| == r.depth + x + Own(r)
    requires r.InTry? ==> s[|s| - 1] == Num(REASON_FINALLY)
    ensures HeldAt(r, b.depth, 0, s)
  {
  }

  lemma ClosesFair(z: Chart, k: nat, e: seq<nat>, c: Vm, i: Instr<Label>, a: Place)
    requires Executes(z, k, e, c, i, a) && i.PopBlock?
    ensures Fair(z, ExecInstr(z.w, z.size, Resolve(z.p, i), c))
  {
    hide Agrees, PlaceAt, Addr, Known, Sane, Fair;
    var d := ExecInstr(z.w, z.size, Resolve(z.p, i), c);
    if d.status.Running? {
      PlaceBehind(z, k, e, c, i, a);
      Closing(z.p, a, e, c, d);
      ToLine(z, k + 1, e[..|e| - 1], Outside(a, a.depth), d);
    } else {
      Stopped(z, d);
    }
  }

  lemma Closing(p: seq<Line>, a: Place, e: seq<nat>, c: Vm, d: Vm)
    requires Agrees(p, a, e, c) && InnerLoop(a) && c.blocks != [] && d.blocks == c.blocks[..|c.blocks| - 1] && d.stack == c.stack
    ensures |e| == |a.regions| && Agrees(p, Outside(a, a.depth), e[..|e| - 1], d)
  {
    hide Matches, HeldAt;
    NoSlack(p, a.regions, e, c);
    Fewer(p, a.regions, e, c, d);
    SlackPrefix(e, e[..|e| - 1], |e| - 1);
  }

  /** The regions around the innermost one. */
  lemma Fewer(p: seq<Line>, rs: seq<Region>, e: seq<nat>, c: Vm, d: Vm)
    requires Regional(p, rs, e, c) && rs != [] && d.blocks == c.blocks[..|c.blocks| - 1]
    ensures |e| == |rs| && Regional(p, rs[..|rs| - 1], e[..|e| - 1], d)
    ensures d.stack == c.stack && HeldUpTo(rs, e, c, |rs| - 1) ==> HeldUpTo(rs[..|rs| - 1], e[..|e| - 1], d, |rs| - 1)
  {
    hide Matches, HeldAt;
    var f := e[..|e| - 1];
    forall j | 0 <= j < |rs| - 1 ensures Matches(p, rs[..|rs| - 1][j], d.blocks[j], Slack(f, j)) {
      assert f[..j] == e[..j];
      SlackPrefix(e, f, j);
    }
  }

  // ----- reasons -----

  lemma ReasonFair(z: Chart, k: nat, e: seq<nat>, c: Vm, i: Instr<Label>, a: Place)
    requires Executes(z, k, e, c, i, a) && (i.ContinueLoop? || i.BreakLoop? || i.BreakElseLoop?)
    ensures Fair(z, ExecInstr(z.w, z.size, Resolve(z.p, i), c))
  {
    hide Within, PlaceAt, Addr, Known, Sane, Stuck;
    var d := ExecInstr(z.w, z.size, Resolve(z.p, i), c);
    ChecksSane(z.env, LabelsBefore(z.p, k), i, a);
    SameWithin(z.p, a.regions, e, c, d);
    if i.ContinueLoop? {
      Refers(z, k, i.to);
      assert InnerLoop(a) ==> GoesOn(z, a, d);
    }
    assert Waits(z, a, e, d);
  }

  lemma SameWithin(p: seq<Line>, rs: seq<Region>, e: seq<nat>, c: Vm, d: Vm)
    requires Within(p, rs, e, c) && d.stack == c.stack && d.blocks == c.blocks
    ensures Within(p, rs, e, d)
  {
    hide Matches, HeldAt;
  }

  lemma ReturnFair(z: Chart, k: nat, e: seq<nat>, c: Vm, i: Instr<Label>, a: Place)
    requires Executes(z, k, e, c, i, a) && i.Return?
    ensures Fair(z, ExecInstr(z.w, z.size, Resolve(z.p, i), c))
  {
    hide Within, PlaceAt, Sane, Stuck, Regional;
    var d := ExecInstr(z.w, z.size, Resolve(z.p, i), c);
    if d.status.Running? {
      ChecksSane(z.env, LabelsBefore(z.p, k), i, a);
      WithinRegional(z.p, a.regions, e, c);
      GroundIs(z.p, a, e, c);
      Prefixes(c.stack, GroundOf(a.regions, e, c), |c.stack| - 1, d.stack);
      StaysWithin(z, a.regions, e, c, d);
      if InnerTry(a) && Inner(a).phase.Finishing? { BehindFinally(z, k, Inner(a).onFinally); }
      assert Waits(z, a, e, d);
    }
  }

  /** Behind a line that stands below a label. */
  lemma BehindFinally(z: Chart, k: nat, l: Label)
    requires k < |z.p| && z.p[k].Code? && l in LabelsBefore(z.p, k)
    ensures Off(z.p, k + 1) > Addr(z.p, l)
  {
    BeforeIndex(z.p, l, k);
    OffMonotone(z.p, IndexOf(z.p, l), k);
  }

  // ----- the end of a finally part -----

  /** END_FINALLY takes what is pending: the marker, an exception, or a return and its value. */
  lemma Pending(w: World, c: Vm, r: Region, depth: nat, x: nat)
    requires r.InTry? && HeldAt(r, depth, x, c.stack) && x <= 2 && |c.stack| == depth + 1 + x
    ensures var d := EndFinallyStep(w, c);
            && d.blocks == c.blocks && d.ip == c.ip && d.stack == c.stack[..if x == 0 then depth else depth + 1]
            && (x == 0 ==> d.reason == REASON_FINALLY)
            && (x == 1 ==> d.reason == REASON_RERAISE || (d.reason == REASON_EXCEPTION && Pitched(d)))
            && (x == 2 ==> d.reason == REASON_RETURN && d.ret.Some?)
  {
  }

  lemma FinallyFair(z: Chart, k: nat, e: seq<nat>, c: Vm, i: Instr<Label>, a: Place)
    requires Executes(z, k, e, c, i, a) && i.EndFinally?
    ensures Fair(z, ExecInstr(z.w, z.size, Resolve(z.p, i), c))
  {
    hide Within, PlaceAt, Sane, Fair, Regional, Addr, EndFinallyStep, HeldAt, Slack, Waits;
    var d, n := ExecInstr(z.w, z.size, Resolve(z.p, i), c), |a.regions| - 1;
    if c.stack == [] {
      Stopped(z, d);
      return;
    }
    ChecksSane(z.env, LabelsBefore(z.p, k), i, a);
    WithinRegional(z.p, a.regions, e, c);
    GroundIs(z.p, a, e, c);
    HeldBefore(z.p, a.regions, e, c);
    LastSlack(z.p, a.regions, e, c);
    var depth := c.blocks[n].depth;
    assert |c.stack| == depth + 1 + e[n];
    Pending(z.w, c, a.regions[n], depth, e[n]);
    if e[n] == 0 {
      PlaceBehind(z, k, e, c, i, a);
      GroundAt(z.p, a.regions, e, c, n);
      LeavesFinally(z, k, e, c, a, d);
    } else {
      Resumed(z, e, c, a, d);
      if e[n] == 1 {
        RerunFair(z, e, c, a, d);
      } else {
        BehindFinally(z, k, Inner(a).onFinally);
        ReturnsFair(z, e, c, a, d);
      }
    }
  }

  /** A return that was pending goes on. */
  lemma ReturnsFair(z: Chart, e: seq<nat>, c: Vm, a: Place, d: Vm)
    requires Sane(z.env, a.regions) && InnerTry(a) && Inner(a).phase.Finishing? && |e| == |a.regions| && Within(z.p, a.regions, e[..|e| - 1] + [0], d)
    requires d.reason == REASON_RETURN && d.ret.Some? && d.ip > Addr(z.p, Inner(a).onFinally)
    ensures Fair(z, d)
  {
    hide Sane, Within, Stuck, Addr;
    assert Waits(z, a, e[..|e| - 1] + [0], d);
  }

  lemma LastSlack(p: seq<Line>, rs: seq<Region>, e: seq<nat>, c: Vm)
    requires rs != [] && Regional(p, rs, e, c)
    ensures |e| == |rs| == |c.blocks| && e[|e| - 1] <= 2
    ensures rs[|rs| - 1].InTry? ==> c.blocks[|rs| - 1].ExceptBlock?
  {
    assert Matches(p, rs[|rs| - 1], c.blocks[|rs| - 1], Slack(e, |rs| - 1));
  }

  /** Nothing is pending but the marker. */
  lemma LeavesFinally(z: Chart, k: nat, e: seq<nat>, c: Vm, a: Place, d: Vm)
    requires Sane(z.env, a.regions) && Regional(z.p, a.regions, e, c) && InnerTry(a) && |a.regions| == |e| == |c.blocks|
    requires HeldUpTo(a.regions, e, c, |a.regions| - 1) && |c.stack| == c.blocks[|a.regions| - 1].depth + 1
    requires d.blocks == c.blocks && d.stack == c.stack[..|c.stack| - 1] && d.reason == REASON_FINALLY
    requires k < |z.p| && d.ip == Off(z.p, k + 1) && PlaceBy(z, k + 1) == Some(Outside(a, Inner(a).depth))
    ensures Fair(z, d)
  {
    hide Sane, Regional, Stuck, HeldAt;
    var n := |a.regions| - 1;
    if n > 0 {
      Rising(z.env, z.p, a.regions, e, c, n - 1, n);
      assert HeldAt(a.regions[n - 1], c.blocks[n - 1].depth, e[n - 1], c.stack);
      Prefixes(c.stack, Ground(a.regions[n - 1], c.blocks[n - 1], e[n - 1]), |c.stack| - 1, d.stack);
    }
    KeepsHeld(z.env, z.p, a.regions, e, c, n, d);
    SameRegions(z.p, a.regions, e, c, d);
    assert Leaving(z, a, e, d);
    assert Waits(z, a, e, d);
  }

  /** What was pending has been taken. */
  lemma Resumed(z: Chart, e: seq<nat>, c: Vm, a: Place, d: Vm)
    requires Sane(z.env, a.regions) && Within(z.p, a.regions, e, c) && InnerTry(a) && Inner(a).phase.Finishing?
    requires |a.regions| == |e| == |c.blocks| && c.blocks[|a.regions| - 1].depth + 1 <= |c.stack|
    requires d.blocks == c.blocks && d.stack == c.stack[..c.blocks[|a.regions| - 1].depth + 1]
    ensures Within(z.p, a.regions, e[..|e| - 1] + [0], d)
  {
    hide Sane, Regional, Within;
    var n := |a.regions| - 1;
    WithinRegional(z.p, a.regions, e, c);
    HeldBefore(z.p, a.regions, e, c);
    assert a.regions[n].(phase := Finishing) == a.regions[n];
    PhaseChange(z, a.regions, e, c, Finishing, 0, d);
    assert a.regions[..n] + [a.regions[n]] == a.regions;
  }

  /** An exception that no catch took: nothing in the machine raises it again. */
  lemma RerunFair(z: Chart, e: seq<nat>, c: Vm, a: Place, d: Vm)
    requires Sane(z.env, a.regions) && a.regions != [] && |e| == |a.regions| && Within(z.p, a.regions, e[..|e| - 1] + [0], d)
    requires d.blocks != [] && d.blocks[|d.blocks| - 1].ExceptBlock?
    requires d.reason == REASON_RERAISE || (d.reason == REASON_EXCEPTION && Pitched(d))
    ensures Fair(z, d)
  {
    hide Sane, Within, Stuck;
    assert Waits(z, a, e[..|e| - 1] + [0], d);
  }

  // ----- unwinding -----

  lemma SanePrefix(env: Env, rs: seq<Region>)
    requires Sane(env, rs) && rs != []
    ensures Sane(env, rs[..|rs| - 1])
  {
    hide PlaceAt;
    var qs := rs[..|rs| - 1];
    forall j | 0 <= j < |qs| ensures SaneAt(env, qs, j) {
      assert SaneAt(env, rs, j) && qs[..j] == rs[..j];
    }
  }

  lemma SaneLast(env: Env, a: Place)
    requires Sane(env, a.regions) && a.regions != []
    ensures var r, outer := Inner(a), a.regions[..|a.regions| - 1];
            && (r.InLoop? ==> PlaceAt(env, r.end) == Place(a.regions, r.depth)
                              && (r.orElse.Some? ==> PlaceAt(env, r.orElse.value) == Place(a.regions, r.depth)))
            && (r.InTry? ==> PlaceAt(env, r.onCatch) == Place(outer + [r.(phase := Matching)], r.depth + 2)
                             && PlaceAt(env, r.onFinally) == Place(outer + [r.(phase := Finishing)], r.depth + 1))
  {
    hide PlaceAt;
    assert SaneAt(env, a.regions, |a.regions| - 1);
    assert a.regions[..|a.regions| - 1] + [Inner(a)] == a.regions;
  }

  /** The stack cut back to what the innermost region found. */
  lemma CutBack(z: Chart, rs: seq<Region>, e: seq<nat>, c: Vm, d: Vm)
    requires Sane(z.env, rs) && Regional(z.p, rs, e, c) && rs != [] && |rs| == |e| == |c.blocks| && HeldUpTo(rs, e, c, |rs| - 1)
    requires c.blocks[|rs| - 1].depth <= |c.stack|
    requires d.blocks == c.blocks && d.stack == Trim(c.stack, c.blocks[|rs| - 1].depth)
    ensures |d.stack| == c.blocks[|rs| - 1].depth && HeldUpTo(rs, e, d, |rs| - 1)
  {
    hide Sane, Regional, HeldAt;
    var n := |rs| - 1;
    if n > 0 {
      Rising(z.env, z.p, rs, e, c, n - 1, n);
      Prefixes(c.stack, Ground(rs[n - 1], c.blocks[n - 1], e[n - 1]), c.blocks[n].depth, d.stack);
    }
    KeepsHeld(z.env, z.p, rs, e, c, n, d);
  }

  lemma BreakFair(z: Chart, a: Place, e: seq<nat>, c: Vm)
    requires Interrupted(z, a, e, c) && InnerLoop(a) && c.status.Running?
    requires c.reason == REASON_BREAK || (c.reason == REASON_BREAKELSE && Inner(a).orElse.Some?)
    ensures Fair(z, UnwindPass(c, z.size))
  {
    hide Sane, Fair, PlaceAt, Known, Addr;
    var d, r, n := UnwindPass(c, z.size), Inner(a), |a.regions| - 1;
    WithinRegional(z.p, a.regions, e, c);
    LoopBlockIs(z.p, a, e, c);
    HeldBefore(z.p, a.regions, e, c);
    NoSlack(z.p, a.regions, e, c);
    SaneLast(z.env, a);
    GroundAt(z.p, a.regions, e, c, n);
    CutBack(z, a.regions, e, c, d);
    AtLoopStart(z.p, a, e, c, d);
    ToLabel(z, if c.reason == REASON_BREAK then r.end else r.orElse.value, e, d);
  }

  lemma LoopBlockIs(p: seq<Line>, a: Place, e: seq<nat>, c: Vm)
    requires Regional(p, a.regions, e, c) && InnerLoop(a)
    ensures c.blocks != []
    ensures var r, b := Inner(a), c.blocks[|c.blocks| - 1];
            && b.LoopBlock? && b.end == Addr(p, r.end) && Known(p, r.end)
            && (r.orElse.Some? ==> b.orElse == Addr(p, r.orElse.value) && Known(p, r.orElse.value))
  {
    assert Matches(p, Inner(a), c.blocks[|c.blocks| - 1], Slack(e, |c.blocks| - 1));
  }

  lemma TryBlockIs(p: seq<Line>, a: Place, e: seq<nat>, c: Vm)
    requires Regional(p, a.regions, e, c) && InnerTry(a)
    ensures c.blocks != []
    ensures var r, b := Inner(a), c.blocks[|c.blocks| - 1];
            && b.ExceptBlock? && b.onCatch == Addr(p, r.onCatch) && Known(p, r.onCatch)
            && b.onFinally == Addr(p, r.onFinally) && Known(p, r.onFinally)
  {
    assert Matches(p, Inner(a), c.blocks[|c.blocks| - 1], Slack(e, |c.blocks| - 1));
  }

  lemma AtLoopStart(p: seq<Line>, a: Place, e: seq<nat>, c: Vm, d: Vm)
    requires Regional(p, a.regions, e, c) && InnerLoop(a) && |a.regions| == |e| == |c.blocks| && d.blocks == c.blocks && e[|e| - 1] == 0
    requires HeldUpTo(a.regions, e, d, |a.regions| - 1) && |d.stack| == c.blocks[|a.regions| - 1].depth
    ensures Agrees(p, Place(a.regions, Inner(a).depth), e, d)
  {
    hide Regional, HeldAt, Slack;
    var n := |a.regions| - 1;
    GroundAt(p, a.regions, e, c, n);
    SlackLast(e);
    SameRegions(p, a.regions, e, c, d);
    LoopHeld(a.regions[n], d.blocks[n].depth, d.stack);
  }

  lemma LoopHeld(r: Region, depth: nat, s: seq<Value>)
    requires r.InLoop? && depth <= |s|
    ensures HeldAt(r, depth, 0, s)
  {
  }

  lemma ContinueFair(z: Chart, a: Place, e: seq<nat>, c: Vm)
    requires Interrupted(z, a, e, c) && InnerLoop(a) && c.status.Running? && c.reason == REASON_CONTINUE
    requires |c.stack| == a.depth + Slack(e, |e|) && GoesOn(z, a, c)
    ensures Fair(z, UnwindPass(c, z.size))
  {
    hide Sane, Fair, PlaceAt, Known, Addr, Within;
    var d := UnwindPass(c, z.size);
    WithinRegional(z.p, a.regions, e, c);
    LoopBlockIs(z.p, a, e, c);
    var l :| Known(z.p, l) && PlaceAt(z.env, l) == a && c.ret == Some(Num(Addr(z.p, l)));
    SameWithin(z.p, a.regions, e, c, d);
    ToLabel(z, l, e, d);
  }

  /** An exception leaves a loop. */
  lemma PassFair(z: Chart, a: Place, e: seq<nat>, c: Vm)
    requires Interrupted(z, a, e, c) && InnerLoop(a) && c.status.Running? && c.reason == REASON_EXCEPTION && Pitched(c)
    ensures Fair(z, UnwindPass(c, z.size))
  {
    hide Sane, PlaceAt, Known, Addr, Stuck, Regional, HeldAt;
    var d, n := UnwindPass(c, z.size), |a.regions| - 1;
    WithinRegional(z.p, a.regions, e, c);
    LoopBlockIs(z.p, a, e, c);
    HeldBefore(z.p, a.regions, e, c);
    var cut := c.(stack := Trim(c.stack, c.blocks[n].depth));
    CutBack(z, a.regions, e, c, cut);
    SameRegions(z.p, a.regions, e, c, cut);
    Fewer(z.p, a.regions, e, cut, d);
    SanePrefix(z.env, a.regions);
    assert Waits(z, Outside(a, 0), e[..n], d);
  }

  /** An exception reaches the catches. */
  lemma CatchFair(z: Chart, a: Place, e: seq<nat>, c: Vm)
    requires Interrupted(z, a, e, c) && InnerTry(a) && c.status.Running? && c.reason == REASON_EXCEPTION && Pitched(c)
    ensures Fair(z, UnwindPass(c, z.size))
  {
    hide Sane, PlaceAt, Known, Addr, Fair, Regional, Within, Slack;
    var d, n := UnwindPass(c, z.size), |a.regions| - 1;
    WithinRegional(z.p, a.regions, e, c);
    TryBlockIs(z.p, a, e, c);
    HeldBefore(z.p, a.regions, e, c);
    if !d.status.Running? {
      Stopped(z, d);
      return;
    }
    var f, depth := e[..n] + [0], c.blocks[n].depth;
    assert d.stack == c.stack[..depth + 1] + [c.exc.value];
    assert HeldAt(a.regions[n].(phase := Matching), depth, 0, d.stack);
    PhaseChange(z, a.regions, e, c, Matching, 0, d);
    SaneLast(z.env, a);
    GroundAt(z.p, a.regions, e, c, n);
    SlackPrefix(e, f, n);
    SlackLast(f);
    ToLabel(z, Inner(a).onCatch, f, d);
  }

  /** A return in a try waits for the finally part. */
  lemma DelayFair(z: Chart, a: Place, e: seq<nat>, c: Vm)
    requires Interrupted(z, a, e, c) && InnerTry(a) && c.status.Running? && c.reason == REASON_RETURN && c.ret.Some?
    requires |a.regions| == |e| == |c.blocks|
    requires if Inner(a).phase.Finishing? then c.ip > Addr(z.p, Inner(a).onFinally)
             else Inner(a).phase.Trying? && |c.stack| == GroundOf(a.regions, e, c)
    ensures Fair(z, UnwindPass(c, z.size))
  {
    hide Sane, PlaceAt, Known, Addr, Fair, Regional, Within, Slack, PushAll;
    var d, n := UnwindPass(c, z.size), |a.regions| - 1;
    WithinRegional(z.p, a.regions, e, c);
    TryBlockIs(z.p, a, e, c);
    HeldBefore(z.p, a.regions, e, c);
    var pushed, block := PushAll(c, [c.ret.value, Num(REASON_RETURN)], z.size), c.blocks[n];
    if !pushed.status.Running? || c.ip > block.onFinally {
      assert !d.status.Running?;
      Stopped(z, d);
      return;
    }
    PushAllRuns(c, [c.ret.value, Num(REASON_RETURN)], z.size);
    NoSlack(z.p, a.regions, e, c);
    var f, depth := e[..n] + [2], block.depth;
    assert HeldAt(a.regions[n].(phase := Finishing), depth, 2, d.stack);
    PhaseChange(z, a.regions, e, c, Finishing, 2, d);
    SaneLast(z.env, a);
    GroundAt(z.p, a.regions, e, c, n);
    SlackSplit(e, f);
    GroundIs(z.p, a, e, c);
    ToLabel(z, Inner(a).onFinally, f, d);
  }

  /** The finally part is over. */
  lemma LeaveFair(z: Chart, a: Place, e: seq<nat>, c: Vm)
    requires Leaving(z, a, e, c) && c.status.Running? && c.reason == REASON_FINALLY
    ensures Fair(z, UnwindPass(c, z.size))
  {
    hide Sane, PlaceAt, Known, Addr, Fair, Regional, Slack, HeldAt;
    var d, n := UnwindPass(c, z.size), |a.regions| - 1;
    SameLength(z.p, a.regions, e, c);
    TryBlockIs(z.p, a, e, c);
    var cut := c.(stack := Trim(c.stack, c.blocks[n].depth));
    CutBack(z, a.regions, e, c, cut);
    SameRegions(z.p, a.regions, e, c, cut);
    Fewer(z.p, a.regions, e, cut, d);
    var k: nat :| k <= |z.p| && c.ip == Off(z.p, k) && PlaceBy(z, k) == Some(Outside(a, Inner(a).depth));
    GroundAt(z.p, a.regions, e, c, n);
    SlackPrefix(e, e[..n], n);
    ToLine(z, k, e[..n], Outside(a, Inner(a).depth), d);
  }

  lemma UnwindFair(z: Chart, a: Place, e: seq<nat>, c: Vm)
    requires Busy(c) && Waits(z, a, e, c)
    ensures Fair(z, UnwindPass(c, z.size))
  {
    hide Fair, Interrupted, UnwindPass, Progresses, Leaving, Addr;
    if c.blocks == [] {
      LeftFair(z, c);
    } else if !Progresses(c) {
      ProgressTable(c, z.size);
      StuckFair(z, UnwindPass(c, z.size));
    } else {
      Innermosts(z, a, e, c);
      if c.reason == REASON_EXCEPTION {
        if InnerLoop(a) { PassFair(z, a, e, c); } else { CatchFair(z, a, e, c); }
      } else if c.reason == REASON_RETURN {
        DelayFair(z, a, e, c);
      } else if c.reason == REASON_FINALLY {
        LeaveFair(z, a, e, c);
      } else if c.reason == REASON_CONTINUE {
        ContinueFair(z, a, e, c);
      } else {
        BreakFair(z, a, e, c);
      }
    }
  }

  lemma LeftFair(z: Chart, c: Vm)
    requires c.blocks == []
    ensures Fair(z, UnwindPass(c, z.size))
  {
  }

  lemma StuckFair(z: Chart, c: Vm)
    requires Stuck(c, z.size)
    ensures Fair(z, c)
  {
    hide Stuck;
  }

  /** Which pairs of a reason and a block progress, in terms of the place. */
  lemma Innermosts(z: Chart, a: Place, e: seq<nat>, c: Vm)
    requires Busy(c) && Waits(z, a, e, c) && Progresses(c) && c.blocks != []
    ensures a.regions != [] && |a.regions| == |c.blocks| == |e|
    ensures c.reason in {REASON_EXCEPTION, REASON_RETURN, REASON_FINALLY, REASON_CONTINUE, REASON_BREAK, REASON_BREAKELSE}
    ensures c.reason in {REASON_CONTINUE, REASON_BREAK, REASON_BREAKELSE} ==> InnerLoop(a)
    ensures c.reason in {REASON_RETURN, REASON_FINALLY} ==> InnerTry(a)
  {
    hide Known, Addr, HeldUpTo, Sane;
    assert Matches(z.p, Inner(a), c.blocks[|c.blocks| - 1], Slack(e, |c.blocks| - 1));
  }

  // ----- runs -----

  lemma InstrFair(z: Chart, k: nat, e: seq<nat>, c: Vm, i: Instr<Label>, a: Place)
    requires Executes(z, k, e, c, i, a)
    ensures Fair(z, ExecInstr(z.w, z.size, Resolve(z.p, i), c))
  {
    hide Executes, Fair, ExecInstr, Resolve;
    ChecksAllowed(z, k, e, c, i, a);
    if Plain(i) {
      if OnException(a) && (i.StoreId? || i.PopTop?) { TakenFair(z, k, e, c, i, a); } else { PlainFair(z, k, e, c, i, a); }
    } else if Jump(i) {
      JumpFair(z, k, e, c, i, a);
    } else if i.JumpForward? {
      JoinFair(z, k, e, c, i, a);
    } else if i.SetupLoop? || i.SetupElseLoop? || i.SetupExcept? {
      OpensFair(z, k, e, c, i, a);
    } else if i.PopBlock? {
      ClosesFair(z, k, e, c, i, a);
    } else if i.EndFinally? {
      FinallyFair(z, k, e, c, i, a);
    } else if i.Return? {
      ReturnFair(z, k, e, c, i, a);
    } else {
      ReasonFair(z, k, e, c, i, a);
    }
  }

  lemma ChecksAllowed(z: Chart, k: nat, e: seq<nat>, c: Vm, i: Instr<Label>, a: Place)
    requires Executes(z, k, e, c, i, a)
    ensures !i.IterReset? && !i.IterFetch? && (i.EndFinally? || Needs(i) <= a.depth) && (i.EndFinally? ==> 1 <= a.depth)
  {
    hide Agrees, Sane, PlaceAt;
  }

  /** Label lines are passed without a step. */
  lemma {:induction false} ToCode(z: Chart, k: nat, e: seq<nat>, c: Vm) returns (j: nat)
    requires Charted(z) && AtLine(z, k, e, c)
    ensures AtLine(z, j, e, c) && (j == |z.p| || z.p[j].Code?)
    decreases |z.p| - k
  {
    hide Agrees, Charted, PlaceAt;
    j := k;
    if k < |z.p| && z.p[k].Lab? {
      LineIsOk(z, k);
      j := ToCode(z, k + 1, e, c);
    }
  }

  lemma LineFair(z: Chart, k: nat, e: seq<nat>, c: Vm)
    requires Charted(z) && AtLine(z, k, e, c) && c.status.Running? && (k == |z.p| || z.p[k].Code?)
    ensures Fair(z, Step(z.w, Assemble(z.p, z.main, z.size), c))
  {
    hide Fair, Agrees, Off, Checks, ExecInstr, Fetch, Fits, Linkable, PlaceAt;
    var b := Assemble(z.p, z.main, z.size);
    if k == |z.p| {
      CodeLength(z.p, TablesOf(z.p, z.main), 0);
      StartOff(z.p);
      assert c.ip >= |b.code|;
      Stopped(z, Step(z.w, b, c));
    } else {
      FetchLine(z.p, z.main, z.size, k);
      LineIsOk(z, k);
      var c1, a := c.(ip := Off(z.p, k + 1)), PlaceBy(z, k).value;
      SameAgrees(z.p, a, e, c, c1);
      assert Step(z.w, b, c) == ExecInstr(z.w, z.size, Resolve(z.p, z.p[k].i), c1);
      InstrFair(z, k, e, c1, z.p[k].i, a);
    }
  }

  lemma StartOff(p: seq<Line>)
    ensures Off(p, 0) == 0
  {
  }

  lemma StepFair(z: Chart, c: Vm)
    requires Charted(z) && Fair(z, c)
    ensures Fair(z, Step(z.w, Assemble(z.p, z.main, z.size), c))
  {
    hide Charted, AtLine, Waits, UnwindPass, Dispatch;
    if !c.status.Running? {
    } else if Stuck(c, z.size) {
      StuckFair(z, c);
    } else if c.reason == REASON_NONE {
      var k: nat, e :| AtLine(z, k, e, c);
      var j := ToCode(z, k, e, c);
      LineFair(z, j, e, c);
    } else {
      var a, e :| Waits(z, a, e, c);
      UnwindFair(z, a, e, c);
    }
  }

  lemma {:induction false} RunFair(z: Chart, c: Vm, n: nat)
    requires Charted(z) && Fair(z, c)
    ensures Fair(z, Run(z.w, Assemble(z.p, z.main, z.size), n, c))
    decreases n
  {
    hide Charted, Fair, Step, Assemble;
    if n > 0 {
      StepFair(z, c);
      RunFair(z, Step(z.w, Assemble(z.p, z.main, z.size), c), n - 1);
    }
  }

  /** A frame that is entered with empty stacks. */
  lemma StartFair(z: Chart, c: Vm)
    requires c.reason == REASON_NONE && c.ip == 0 && c.stack == [] && c.blocks == []
    ensures Fair(z, c)
  {
    assert AtLine(z, 0, [], c);
  }

  // ----- one depth for each line -----

  lemma {:induction false} OneLine(p: seq<Line>, j: nat, k: nat)
    requires j < |p| && k < |p| && p[j].Code? && p[k].Code? && Off(p, j) == Off(p, k)
    ensures j == k
  {
    if j < k { OffMonotone(p, j + 1, k); }
    if k < j { OffMonotone(p, k + 1, j); }
  }

  /** Whenever the run is about to execute line k, the blocks are those of its place and the operand
      stack is as deep, but for up to two values more in each finally part around the line. */
  lemma OneDepth(z: Chart, c: Vm, k: nat) returns (e: seq<nat>)
    requires Charted(z) && Fair(z, c) && k < |z.p| && z.p[k].Code?
    requires c.status.Running? && c.reason == REASON_NONE && c.ip == Off(z.p, k)
    ensures PlaceBy(z, k).Some?
    ensures var a := PlaceBy(z, k).value;
            && |c.blocks| == |a.regions| && Admits(a.regions, e) && |c.stack| == a.depth + Slack(e, |e|)
            && HeldUpTo(a.regions, e, c, |a.regions|)
  {
    hide Charted, Off, PlaceBy;
    var j: nat, f :| AtLine(z, j, f, c);
    var i := ToCode(z, j, f, c);
    if i == |z.p| { PastLine(z.p, k); } else { OneLine(z.p, i, k); }
    e := f;
  }

  lemma PastLine(p: seq<Line>, k: nat)
    requires k < |p| && p[k].Code?
    ensures Off(p, k) < Off(p, |p|)
  {
    OffMonotone(p, k + 1, |p|);
  }

  /** Outside all finally parts there is no slack. */
  lemma {:induction false} NoFinally(rs: seq<Region>, e: seq<nat>, n: nat)
    requires Admits(rs, e) && n <= |rs| && forall r | r in rs :: r.InLoop? || !r.phase.Finishing?
    ensures Slack(e, n) == 0
    decreases n
  {
    if n > 0 { NoFinally(rs, e, n - 1); }
  }

  // ----- what lay on the stack when a block was opened -----

  /** Block b is still there, and so is what lay below it. */
  predicate Keeps(c: Vm, d: Vm, b: nat)
    requires b < |c.blocks|
  {
    b < |d.blocks| ==>
      var depth := c.blocks[b].depth;
      d.blocks[b].depth == depth && depth <= |c.stack| && depth <= |d.stack| && d.stack[..depth] == c.stack[..depth]
  }

  /** An instruction takes its operands from the top. */
  lemma ExecKeeps(w: World, size: nat, i: Instr<nat>, c: Vm)
    requires Pops(i, c) <= |c.stack| && Needs(i) <= |c.stack| && !i.IterFetch? && c.status.Running? && c.reason == REASON_NONE
    ensures var d := ExecInstr(w, size, i, c); d.status.Running? ==>
              && c.stack[..|c.stack| - Pops(i, c)] <= d.stack
              && forall b :: 0 <= b < |c.blocks| && b < |d.blocks| ==> d.blocks[b].depth == c.blocks[b].depth
  {
    if Plain(i) {
      hide ExecInstr;
      PlainStep(w, size, i, c);
    } else {
      OtherKeeps(w, size, i, c);
    }
  }

  lemma OtherKeeps(w: World, size: nat, i: Instr<nat>, c: Vm)
    requires Pops(i, c) <= |c.stack| && !i.IterFetch? && !Plain(i)
    ensures var d := ExecInstr(w, size, i, c); d.status.Running? ==>
              && c.stack[..|c.stack| - Pops(i, c)] <= d.stack
              && forall b :: 0 <= b < |c.blocks| && b < |d.blocks| ==> d.blocks[b].depth == c.blocks[b].depth
  {
    hide PushAll, PushResult, Truth;
  }

  /** No line takes more than its region leaves to it. */
  lemma LineKeeps(z: Chart, k: nat, e: seq<nat>, c: Vm, i: Instr<Label>, a: Place, b: nat)
    requires Executes(z, k, e, c, i, a) && b < |c.blocks|
    ensures var d := ExecInstr(z.w, z.size, Resolve(z.p, i), c); d.status.Running? ==> Keeps(c, d, b)
  {
    hide Within, PlaceAt, Sane, ExecInstr, Regional, Slack, Resolve, HeldAt, Pops, Keeps;
    ChecksAllowed(z, k, e, c, i, a);
    ChecksSane(z.env, LabelsBefore(z.p, k), i, a);
    WithinRegional(z.p, a.regions, e, c);
    GroundIs(z.p, a, e, c);
    HeldBefore(z.p, a.regions, e, c);
    var n := |a.regions| - 1;
    assert c.blocks[b].depth <= c.blocks[n].depth by { if b < n { Rising(z.env, z.p, a.regions, e, c, b, n); } }
    PopsOf(z.p, i, a.regions[n], c.blocks[n].depth, e[n], c);
    LastSlack(z.p, a.regions, e, c);
    var m := |c.stack| - Pops(i, c);
    assert c.blocks[n].depth <= m;
    ExecKeeps(z.w, z.size, Resolve(z.p, i), c);
    Prefixes2(c, ExecInstr(z.w, z.size, Resolve(z.p, i), c), b, m);
  }

  lemma Prefixes2(c: Vm, d: Vm, b: nat, m: nat)
    requires b < |c.blocks| && c.blocks[b].depth <= m <= |c.stack|
    requires d.status.Running? ==> c.stack[..m] <= d.stack && (b < |d.blocks| ==> d.blocks[b].depth == c.blocks[b].depth)
    ensures d.status.Running? ==> Keeps(c, d, b)
  {
    if d.status.Running? {
      var depth := c.blocks[b].depth;
      assert d.stack[..depth] == d.stack[..m][..depth] == c.stack[..m][..depth] == c.stack[..depth];
    }
  }

  lemma PopsOf(p: seq<Line>, i: Instr<Label>, r: Region, depth: nat, x: nat, c: Vm)
    requires HeldAt(r, depth, x, c.stack)
    ensures Pops(Resolve(p, i), c) == Pops(i, c) && Needs(Resolve(p, i)) == Needs(i) && Resolve(p, i).IterFetch? == i.IterFetch?
    ensures i.EndFinally? && r.InTry? && |c.stack| == depth + 1 + x && x <= 2 ==> Pops(i, c) <= if x == 2 then 2 else 1
    ensures !i.EndFinally? ==> Pops(i, c) == Takes(i)
  {
  }

  lemma WaitsWithin(z: Chart, a: Place, e: seq<nat>, c: Vm)
    requires Waits(z, a, e, c)
    ensures Sane(z.env, a.regions) && Regional(z.p, a.regions, e, c)
  {
    hide Sane, Matches, PlaceAt, HeldAt;
  }

  lemma PassKeeps(z: Chart, a: Place, e: seq<nat>, c: Vm, b: nat)
    requires Busy(c) && Waits(z, a, e, c) && b < |c.blocks|
    ensures var d := UnwindPass(c, z.size); d.status.Running? ==> Keeps(c, d, b)
  {
    hide PlaceAt, Sane, Regional, HeldAt, PushAll, Waits;
    WaitsWithin(z, a, e, c);
    var d, n := UnwindPass(c, z.size), |c.blocks| - 1;
    SameLength(z.p, a.regions, e, c);
    if b < n { Rising(z.env, z.p, a.regions, e, c, b, n); }
    assert c.blocks[n].depth <= |c.stack| by { DepthHeld(z, a, e, c); }
    if c.ret.Some? && PushAll(c, [c.ret.value, Num(REASON_RETURN)], z.size).status.Running? {
      PushAllRuns(c, [c.ret.value, Num(REASON_RETURN)], z.size);
    }
    if d.status.Running? && b < |d.blocks| {
      assert c.stack[..c.blocks[b].depth] <= d.stack;
    }
  }

  lemma DepthHeld(z: Chart, a: Place, e: seq<nat>, c: Vm)
    requires Waits(z, a, e, c) && c.blocks != []
    ensures c.blocks[|c.blocks| - 1].depth <= |c.stack|
  {
    hide Sane, Matches, PlaceAt;
    if c.reason != REASON_FINALLY { HeldBefore(z.p, a.regions, e, c); }
  }

  lemma StepKeeps(z: Chart, c: Vm, b: nat)
    requires Charted(z) && Fair(z, c) && c.status.Running? && b < |c.blocks| && !Stuck(c, z.size)
    ensures var d := Step(z.w, Assemble(z.p, z.main, z.size), c); d.status.Running? ==> Keeps(c, d, b)
  {
    hide Charted, AtLine, Waits, UnwindPass, Dispatch, Keeps;
    if c.reason == REASON_NONE {
      var k: nat, e :| AtLine(z, k, e, c);
      var j := ToCode(z, k, e, c);
      CodeKeeps(z, j, e, c, b);
    } else {
      var a, e :| Waits(z, a, e, c);
      PassKeeps(z, a, e, c, b);
    }
  }

  lemma CodeKeeps(z: Chart, k: nat, e: seq<nat>, c: Vm, b: nat)
    requires Charted(z) && AtLine(z, k, e, c) && c.status.Running? && (k == |z.p| || z.p[k].Code?) && b < |c.blocks|
    ensures var d := Step(z.w, Assemble(z.p, z.main, z.size), c); d.status.Running? ==> Keeps(c, d, b)
  {
    hide Agrees, Off, Checks, ExecInstr, Fetch, Fits, Linkable, PlaceAt, Keeps;
    var y := Assemble(z.p, z.main, z.size);
    if k == |z.p| {
      CodeLength(z.p, TablesOf(z.p, z.main), 0);
      StartOff(z.p);
    } else {
      FetchLine(z.p, z.main, z.size, k);
      LineIsOk(z, k);
      var c1, a := c.(ip := Off(z.p, k + 1)), PlaceBy(z, k).value;
      SameAgrees(z.p, a, e, c, c1);
      assert Step(z.w, y, c) == ExecInstr(z.w, z.size, Resolve(z.p, z.p[k].i), c1);
      LineKeeps(z, k, e, c1, z.p[k].i, a, b);
      SameKeeps(c, c1, Step(z.w, y, c), b);
    }
  }

  lemma SameKeeps(c: Vm, c1: Vm, d: Vm, b: nat)
    requires c1.stack == c.stack && c1.blocks == c.blocks && b < |c.blocks|
    ensures Keeps(c1, d, b) ==> Keeps(c, d, b)
  {
  }

  lemma DepthIn(z: Chart, c: Vm, b: nat)
    requires Fair(z, c) && c.status.Running? && !Stuck(c, z.size) && b < |c.blocks|
    ensures c.blocks[b].depth <= |c.stack|
  {
    hide AtLine, Waits, Stuck;
    if c.reason == REASON_NONE {
      var k: nat, e :| AtLine(z, k, e, c);
      LineDepth(z, k, e, c, b);
    } else {
      var a, e :| Waits(z, a, e, c);
      WaitDepth(z, a, e, c, b);
    }
  }

  lemma LineDepth(z: Chart, k: nat, e: seq<nat>, c: Vm, b: nat)
    requires AtLine(z, k, e, c) && b < |c.blocks|
    ensures c.blocks[b].depth <= |c.stack|
  {
    hide Matches;
    assert HeldAt(PlaceBy(z, k).value.regions[b], c.blocks[b].depth, e[b], c.stack);
  }

  lemma WaitDepth(z: Chart, a: Place, e: seq<nat>, c: Vm, b: nat)
    requires Waits(z, a, e, c) && b < |c.blocks|
    ensures c.blocks[b].depth <= |c.stack|
  {
    hide Sane, PlaceAt, Regional, HeldAt;
    DepthHeld(z, a, e, c);
    SameLength(z.p, a.regions, e, c);
    if b < |c.blocks| - 1 { Rising(z.env, z.p, a.regions, e, c, b, |c.blocks| - 1); }
  }

  /** As long as a block stays open, what lay on the operand stack when it was opened stays there.  So the
      stack that an exception leaves at the catches is that of the entry to the try, with the marker above it. */
  lemma {:induction false} EntryKept(z: Chart, c: Vm, n: nat, b: nat)
    requires Charted(z) && Fair(z, c) && b < |c.blocks|
    requires forall i: nat :: i <= n ==> var d := Run(z.w, Assemble(z.p, z.main, z.size), i, c);
                                        d.status.Running? && b < |d.blocks| && !Stuck(d, z.size)
    ensures Keeps(c, Run(z.w, Assemble(z.p, z.main, z.size), n, c), b)
    decreases n
  {
    hide Charted, Fair, Step, Assemble, Stuck;
    var y := Assemble(z.p, z.main, z.size);
    if n > 0 {
      var d := Step(z.w, y, c);
      assert Run(z.w, y, 0, c) == c && Run(z.w, y, 0, d) == d && Run(z.w, y, 1, c) == d;
      StepFair(z, c);
      StepKeeps(z, c, b);
      forall i: nat | i <= n - 1 ensures Run(z.w, y, i, d) == Run(z.w, y, i + 1, c) { }
      EntryKept(z, d, n - 1, b);
    } else {
      assert Run(z.w, y, 0, c) == c;
      DepthIn(z, c, b);
    }
  }
}
