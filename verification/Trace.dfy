/** Following a run of the machine through an assembled frame, line by line. */
module Trace {
  import opened Values
  import opened Assembly
  import opened Machine
  import opened Assembler

  /** A frame of lines p, assembled and started in o. */
  datatype Ctx = Ctx(w: World, p: seq<Line>, main: bool, size: nat, o: Vm)

  ghost predicate Sound(x: Ctx) {
    Linkable(x.p) && Fits(x.p, x.main)
  }

  /** The run is in c after n steps, and has kept its blocks nested in every state up to there. */
  ghost predicate Reached(x: Ctx, n: nat, c: Vm) {
    && Run(x.w, Assemble(x.p, x.main, x.size), n, x.o) == c
    && forall i: nat :: i <= n ==> Nested(Run(x.w, Assemble(x.p, x.main, x.size), i, x.o))
  }

  lemma NestedAt(x: Ctx, n: nat, c: Vm)
    requires Reached(x, n, c)
    ensures Nested(c)
  {
  }

  predicate Live(c: Vm) {
    c.status.Running? && c.reason == REASON_NONE
  }

  /** The run is about to execute line k in c. */
  ghost predicate Here(x: Ctx, n: nat, c: Vm, k: nat) {
    Sound(x) && Reached(x, n, c) && Live(c) && c.ip == Off(x.p, k)
  }

  predicate HasCode(p: seq<Line>, k: nat, code: seq<Line>) {
    k + |code| <= |p| && p[k..k + |code|] == code
  }

  lemma Split(p: seq<Line>, k: nat, a: seq<Line>, b: seq<Line>)
    requires HasCode(p, k, a + b)
    ensures HasCode(p, k, a) && HasCode(p, k + |a|, b)
  {
    assert p[k..k + |a|] == (a + b)[..|a|];
    assert p[k + |a|..k + |a| + |b|] == (a + b)[|a|..];
  }

  lemma Split3(p: seq<Line>, k: nat, a: seq<Line>, b: seq<Line>, c: seq<Line>)
    requires HasCode(p, k, a + b + c)
    ensures HasCode(p, k, a) && HasCode(p, k + |a|, b) && HasCode(p, k + |a| + |b|, c)
    ensures |a + b + c| == |a| + |b| + |c|
  {
    hide HasCode;
    Split(p, k, a + b, c);
    Split(p, k, a, b);
  }

  lemma Split4(p: seq<Line>, k: nat, a: seq<Line>, b: seq<Line>, c: seq<Line>, d: seq<Line>)
    requires HasCode(p, k, a + b + c + d)
    ensures HasCode(p, k, a) && HasCode(p, k + |a|, b) && HasCode(p, k + |a| + |b|, c)
    ensures HasCode(p, k + |a| + |b| + |c|, d) && |a + b + c + d| == |a| + |b| + |c| + |d|
  {
    hide HasCode;
    Split(p, k, a + b + c, d);
    Split3(p, k, a, b, c);
  }

  lemma Split5(p: seq<Line>, k: nat, a: seq<Line>, b: seq<Line>, c: seq<Line>, d: seq<Line>, e: seq<Line>)
    requires HasCode(p, k, a + b + c + d + e)
    ensures HasCode(p, k, a) && HasCode(p, k + |a|, b) && HasCode(p, k + |a| + |b|, c)
    ensures HasCode(p, k + |a| + |b| + |c|, d) && HasCode(p, k + |a| + |b| + |c| + |d|, e) && |a + b + c + d + e| == |a| + |b| + |c| + |d| + |e|
  {
    hide HasCode;
    Split(p, k, a + b + c + d, e);
    Split4(p, k, a, b, c, d);
  }

  lemma Split6(p: seq<Line>, k: nat, a: seq<Line>, b: seq<Line>, c: seq<Line>, d: seq<Line>, e: seq<Line>, f: seq<Line>)
    requires HasCode(p, k, a + b + c + d + e + f)
    ensures HasCode(p, k, a) && HasCode(p, k + |a|, b) && HasCode(p, k + |a| + |b|, c)
    ensures HasCode(p, k + |a| + |b| + |c|, d) && HasCode(p, k + |a| + |b| + |c| + |d|, e) && HasCode(p, k + |a| + |b| + |c| + |d| + |e|, f) && |a + b + c + d + e + f| == |a| + |b| + |c| + |d| + |e| + |f|
  {
    hide HasCode;
    Split(p, k, a + b + c + d + e, f);
    Split5(p, k, a, b, c, d, e);
  }

  lemma Split7(p: seq<Line>, k: nat, a: seq<Line>, b: seq<Line>, c: seq<Line>, d: seq<Line>, e: seq<Line>, f: seq<Line>, g: seq<Line>)
    requires HasCode(p, k, a + b + c + d + e + f + g)
    ensures HasCode(p, k, a) && HasCode(p, k + |a|, b) && HasCode(p, k + |a| + |b|, c)
    ensures HasCode(p, k + |a| + |b| + |c|, d) && HasCode(p, k + |a| + |b| + |c| + |d|, e) && HasCode(p, k + |a| + |b| + |c| + |d| + |e|, f) && HasCode(p, k + |a| + |b| + |c| + |d| + |e| + |f|, g) && |a + b + c + d + e + f + g| == |a| + |b| + |c| + |d| + |e| + |f| + |g|
  {
    hide HasCode;
    Split(p, k, a + b + c + d + e + f, g);
    Split6(p, k, a, b, c, d, e, f);
  }

  lemma LineAt(p: seq<Line>, k: nat, code: seq<Line>, j: nat)
    requires HasCode(p, k, code) && j < |code|
    ensures k + j < |p| && p[k + j] == code[j]
  {
    assert p[k..k + |code|][j] == p[k + j];
  }

  /** A label line takes no room, and jumps to the label arrive there. */
  lemma AddrAt(x: Ctx, k: nat)
    requires Sound(x) && k < |x.p| && x.p[k].Lab?
    ensures Addr(x.p, x.p[k].l) == Off(x.p, k) == Off(x.p, k + 1)
  {
    IndexOfUnique(x.p, k);
  }

  /** A label among the lines at k. */
  lemma LabelAt(x: Ctx, k: nat, code: seq<Line>, j: nat)
    requires Sound(x) && HasCode(x.p, k, code) && j < |code| && code[j].Lab?
    ensures Addr(x.p, code[j].l) == Off(x.p, k + j) == Off(x.p, k + j + 1)
  {
    LineAt(x.p, k, code, j);
    AddrAt(x, k + j);
  }

  lemma StepRun(x: Ctx, n: nat, c: Vm)
    requires Reached(x, n, c) && Nested(Step(x.w, Assemble(x.p, x.main, x.size), c))
    ensures Reached(x, n + 1, Step(x.w, Assemble(x.p, x.main, x.size), c))
  {
    RunAdd(x.w, Assemble(x.p, x.main, x.size), n, 1, x.o);
    assert Run(x.w, Assemble(x.p, x.main, x.size), 1, c) == Step(x.w, Assemble(x.p, x.main, x.size), c);
  }

  /** Execute line k. */
  lemma Perform(x: Ctx, n: nat, c: Vm, k: nat) returns (d: Vm)
    requires Here(x, n, c, k) && k < |x.p| && x.p[k].Code?
    requires Pops(x.p[k].i, c) == 0 || Floor(c) + Pops(x.p[k].i, c) <= |c.stack|
    ensures Reached(x, n + 1, d)
    ensures d == ExecInstr(x.w, x.size, Resolve(x.p, x.p[k].i), c.(ip := Off(x.p, k + 1)))
  {
    hide Reached, ExecInstr, Off, Sound, Assemble, Fetch;
    var c1 := c.(ip := Off(x.p, k + 1));
    NestedAt(x, n, c);
    ResolvePops(x.p, x.p[k].i, c);
    assert Nested(c1) && Floor(c1) == Floor(c);
    ExecNested(x.w, x.size, Resolve(x.p, x.p[k].i), c1);
    StepLine(x, n, c, k);
    StepRun(x, n, c);
    d := Step(x.w, Assemble(x.p, x.main, x.size), c);
  }

  lemma StepLine(x: Ctx, n: nat, c: Vm, k: nat)
    requires Here(x, n, c, k) && k < |x.p| && x.p[k].Code?
    ensures Step(x.w, Assemble(x.p, x.main, x.size), c)
         == ExecInstr(x.w, x.size, Resolve(x.p, x.p[k].i), c.(ip := Off(x.p, k + 1)))
  {
    hide Reached, ExecInstr, Off;
    FetchLine(x.p, x.main, x.size, k);
  }

  lemma ResolvePops(p: seq<Line>, i: Instr<Label>, c: Vm)
    ensures Pops(Resolve(p, i), c) == Pops(i, c)
  {
  }

  /** One pass of block unwinding. */
  lemma Unwind(x: Ctx, n: nat, c: Vm) returns (d: Vm)
    requires Reached(x, n, c) && c.status.Running? && c.reason != REASON_NONE
    ensures Reached(x, n + 1, d) && d == UnwindPass(c, x.size)
  {
    NestedAt(x, n, c);
    UnwindNested(c, x.size);
    StepRun(x, n, c);
    d := UnwindPass(c, x.size);
  }
}
