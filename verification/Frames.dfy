/** A whole frame, from its syntax tree to the end of its run: compiled, assembled to bytes, fetched,
    decoded and executed. */
module Frames {
  import opened Values
  import opened Syntax
  import opened Semantics
  import opened Assembly
  import opened Emit
  import opened Machine
  import opened Assembler
  import opened Limits
  import opened Labels
  import opened StmtLabels
  import opened Trace
  import opened Steps
  import opened SimulateExpr
  import opened Endings
  import opened SimulateStmt
  import opened Fuel
  import opened Anchors
  import opened Unwinding

  // ----- labels -----

  lemma {:induction false} AbsAt(p: seq<Line>, k: nat, l: Label)
    requires k < |p| && Abso(p[k], l)
    ensures Abs(p, l)
  {
    if k > 0 { AbsAt(p[1..], k - 1, l); }
  }

  lemma {:induction false} Defined(p: seq<Line>, l: Label)
    requires Count(p, l) >= 1
    ensures IndexOf(p, l) < |p|
  {
    if p[0] != Lab(l) { Defined(p[1..], l); }
  }

  /** A relative reference that does not stay open is to a label further on. */
  lemma {:induction false} Ahead(p: seq<Line>, k: nat, l: Label)
    requires k < |p| && Rel(p[k], l) && !Open(p, l) && Count(p, l) <= 1
    ensures k < IndexOf(p, l) < |p|
  {
    if k == 0 {
      Defined(p[1..], l);
    } else {
      Ahead(p[1..], k - 1, l);
      IndexCounts(p[1..], l);
    }
  }

  lemma {:induction false} IndexCounts(p: seq<Line>, l: Label)
    ensures IndexOf(p, l) < |p| <==> Count(p, l) >= 1
  {
    if p != [] { IndexCounts(p[1..], l); }
  }

  /** Code whose labels are all used as they should be can be assembled. */
  lemma FineLinks(p: seq<Line>, hi: nat)
    requires forall l :: Fine(p, l, 0, hi, None)
    ensures Linkable(p)
  {
    hide Count, Open, Abs, IndexOf;
    forall l ensures Count(p, l) <= 1 { assert Fine(p, l, 0, hi, None); }
    forall k, l | 0 <= k < |p| && p[k].Code? && Absolute(p[k].i, l) ensures Count(p, l) == 1 {
      assert Fine(p, l, 0, hi, None);
      AbsAt(p, k, l);
    }
    forall k, l | 0 <= k < |p| && p[k].Code? && Relative(p[k].i, l) ensures k < IndexOf(p, l) < |p| {
      assert Fine(p, l, 0, hi, None);
      Ahead(p, k, l);
    }
  }

  /** Label closure: in every frame, each label is defined at most once, every label that is jumped to
      is defined, and those that need an unsigned offset are defined further on. */
  lemma FrameLinks(s: Stmt, main: bool, append: bool)
    requires WellFormed(s, false)
    ensures Linkable(FrameCode(s, main, append))
  {
    hide Count, Open, Abs, IndexOf, EmitStmt, WellFormed, StmtCount, Linkable, FrameCode, Fine;
    forall l ensures Fine(FrameCode(s, main, append), l, 0, StmtCount(s), None) {
      FrameFine(s, main, append, l);
    }
    FineLinks(FrameCode(s, main, append), StmtCount(s));
  }

  lemma FrameFine(s: Stmt, main: bool, append: bool, l: Label)
    requires WellFormed(s, false)
    ensures Fine(FrameCode(s, main, append), l, 0, StmtCount(s), None)
  {
    hide Count, Open, Abs, EmitStmt, WellFormed, StmtCount;
    StmtFine(s, 0, None, l);
    var tail := FrameTail(main, append);
    Join2(EmitStmt(s, 0, None), tail, l);
    Lit0(l);
    if append { Lit2(tail[0], tail[1], l); }
  }

  // ----- runs -----

  function Frame(s: Stmt, main: bool, append: bool, size: nat): Bytecode {
    Assemble(FrameCode(s, main, append), main, size)
  }

  /** A frame about to be run, with empty stacks. */
  function Entered(vars: Vars, cursors: map<nat, nat>): Vm {
    Vm(0, [], [], vars, cursors, REASON_NONE, None, None, Running)
  }

  /** The frame's code fits into 16-bit operands, its stack into `size` and its blocks into the block
      stack. */
  predicate Runnable(s: Stmt, main: bool, append: bool, size: nat) {
    && WellFormed(s, false)
    && Fits(FrameCode(s, main, append), main)
    && StackNeed(s) <= size && 0 < size
    && BlockNeed(s) <= BLOCK_MAX_DEPTH
  }

  /** How the frame is left, or why it is not, according to the meaning o of its statement. */
  predicate Concludes(w: World, main: bool, append: bool, size: nat, o: Outcome, d: Vm) {
    match o
    case Normal(vars) => d.status.Left? && d.vars == vars && (append ==> Defaulted(w, main, vars, d))
    case Threw(vars, y) => d.status.Left? && d.vars == vars && d.reason == REASON_EXCEPTION && d.exc == Some(y)
    case Returned(vars, v) => d.status.Left? && d.vars == vars && d.ret == Some(v)
    case Leave(vars, v) => d.status.Left? && d.vars == vars && d.ret == Some(v)
    case Broke(vars) => d.status.Left? && d.vars == vars
    case BrokeElse(vars) => d.status.Left? && d.vars == vars
    case Continued(_) => false
    case Abort => d.status.Fatal?
    case Hang => Stuck(d, size)
    case Timeout => d.status.Running?
    case Restart(vars) => Restarted(d, Entered(vars, d.cursors), vars)
    case Unknown => false
  }

  /** The frame is left by the return at its end. */
  predicate Defaulted(w: World, main: bool, vars: Vars, d: Vm) {
    var r := if main then Ok(Num(0)) else Lookup(w, vars, "self");
    if r.Ok? then d.ret == Some(r.v) && d.reason == REASON_RETURN
    else d.exc == Some(r.x) && d.reason == REASON_EXCEPTION
  }

  /** Compiler correctness.  The bytes of every runnable frame, executed from empty stacks, do what the
      syntax tree means: for each amount of fuel there is a number of steps after which the frame has
      been left the way the reference semantics says, or, if the fuel runs out, at least as many
      steps are done and the frame is still running. */
  lemma FrameCorrect(w: World, s: Stmt, main: bool, append: bool, size: nat, vars: Vars, cursors: map<nat, nat>, fuel: nat)
    returns (m: nat)
    requires Runnable(s, main, append, size)
    ensures var o := Exec(w, s, vars, fuel);
            && Concludes(w, main, append, size, o, Run(w, Frame(s, main, append, size), m, Entered(vars, cursors)))
            && (o.Timeout? ==> m >= fuel)
    ensures forall i: nat :: i <= m ==> Nested(Run(w, Frame(s, main, append, size), i, Entered(vars, cursors)))
  {
    hide Exec, EmitStmt, Off, Addr, Fits, Linkable, StackNeed, BlockNeed, WellFormed, HasCode, FrameTail, Ends, Concludes, TablesOf, CodeBytes, Reached;
    var p, c := FrameCode(s, main, append), Entered(vars, cursors);
    var x := Ctx(w, p, main, size, c);
    var code, tail := EmitStmt(s, 0, None), FrameTail(main, append);
    FrameLinks(s, main, append);
    WholeCode(p);
    OffZero(p);
    Split(p, 0, code, tail);
    Starts(x);
    var n, d := SimStmt(x, s, 0, 0, None, 0, c, fuel);
    var e;
    m, e := EndFrame(x, append, c, Exec(w, s, vars, fuel), |code|, fuel, n, d);
    ReachedRun(x, m, e);
  }

  lemma Starts(x: Ctx)
    requires Nested(x.o)
    ensures Reached(x, 0, x.o)
  {
  }

  lemma ReachedRun(x: Ctx, m: nat, e: Vm)
    requires Reached(x, m, e)
    ensures Run(x.w, Assemble(x.p, x.main, x.size), m, x.o) == e
    ensures forall i: nat :: i <= m ==> Nested(Run(x.w, Assemble(x.p, x.main, x.size), i, x.o))
  {
  }

  lemma WholeCode(p: seq<Line>)
    ensures HasCode(p, 0, p)
  {
  }

  lemma OffZero(p: seq<Line>)
    ensures Off(p, 0) == 0
  {
  }

  lemma FrameSize(s: Stmt, main: bool, append: bool, size: nat)
    ensures Frame(s, main, append, size).stackSize == size
  {
  }

  /** From the end of the statement to the end of the frame. */
  lemma EndFrame(x: Ctx, append: bool, c: Vm, o: Outcome, end: nat, fuel: nat, n: nat, d: Vm) returns (m: nat, e: Vm)
    requires Sound(x) && |c.stack| < x.size && Live(c) && c.blocks == []
    requires Ends(x, c, o, end, None, 0, fuel, n, d)
    requires HasCode(x.p, end, FrameTail(x.main, append)) && end + |FrameTail(x.main, append)| == |x.p|
    ensures Reached(x, m, e) && Concludes(x.w, x.main, append, x.size, o, e) && (o.Timeout? ==> m >= fuel)
  {
    hide Sound, HasCode, Off, Addr, ExecInstr, Reached;
    m, e := n, d;
    if o.Normal? {
      m, e := EndNormal(x, append, c, end, n, d);
    } else if o.Threw? || o.Returned? || o.Broke? || o.BrokeElse? {
      e := Unwind(x, n, d);
      m := n + 1;
    }
  }

  lemma EndNormal(x: Ctx, append: bool, c: Vm, end: nat, n: nat, d: Vm) returns (m: nat, e: Vm)
    requires Here(x, n, d, end) && |d.stack| < x.size && d.blocks == []
    requires HasCode(x.p, end, FrameTail(x.main, append)) && end + |FrameTail(x.main, append)| == |x.p|
    ensures Reached(x, m, e) && Concludes(x.w, x.main, append, x.size, Normal(d.vars), e)
  {
    hide Sound, HasCode, Off, Addr, ExecInstr, Reached;
    var tail := FrameTail(x.main, append);
    if !append {
      e := PastEnd(x, n, d);
      m := n + 1;
    } else {
      e := DoLoad(x, n, d, end, tail, 0, tail[0].i);
      m := n + 1;
      if x.main || Lookup(x.w, d.vars, "self").Ok? {
        e := DoLast(x, m, e, end, tail, 1, Instr.Return);
        m := n + 2;
      }
      e := Unwind(x, m, e);
      m := m + 1;
    }
  }

  /** Running past the code leaves the frame. */
  lemma PastEnd(x: Ctx, n: nat, d: Vm) returns (e: Vm)
    requires Reached(x, n, d) && Live(d) && d.ip == Off(x.p, |x.p|)
    ensures Reached(x, n + 1, e) && e == d.(status := Left)
  {
    hide Off, CodeBytes;
    CodeLength(x.p, TablesOf(x.p, x.main), 0);
    OffZero(x.p);
    NestedAt(x, n, d);
    e := d.(status := Left);
    StepRun(x, n, d);
  }

  /** The frame stops after some number of steps. */
  ghost predicate Stops(w: World, b: Bytecode, c: Vm) {
    exists n: nat :: !Run(w, b, n, c).status.Running?
  }

  lemma StopsOnce(w: World, b: Bytecode, c: Vm, m: nat, n: nat)
    requires !Run(w, b, m, c).status.Running? && m <= n
    ensures !Run(w, b, n, c).status.Running?
  {
    RunAdd(w, b, m, n - m, c);
    RunStopped(w, b, n - m, Run(w, b, m, c));
  }

  lemma NeverStops(w: World, b: Bytecode, c: Vm, m: nat)
    requires Stuck(Run(w, b, m, c), b.stackSize)
    ensures !Stops(w, b, c)
  {
    forall n: nat ensures Run(w, b, n, c).status.Running? {
      if !Run(w, b, n, c).status.Running? {
        StopsOnce(w, b, c, n, m + n);
        RunAdd(w, b, m, n, c);
        StuckForever(w, b, n, Run(w, b, m, c));
      }
    }
  }

  /** Both directions of correctness.  A runnable frame is left in a certain way
      exactly if the program means so: from the meaning to the run, and from the run back to the one
      meaning there is. */
  lemma RunsWhatItMeans(w: World, s: Stmt, main: bool, append: bool, size: nat, vars: Vars, cursors: map<nat, nat>, o: Outcome)
    returns (m: nat)
    requires Runnable(s, main, append, size) && Means(w, s, vars, o)
    ensures Concludes(w, main, append, size, o, Run(w, Frame(s, main, append, size), m, Entered(vars, cursors)))
  {
    hide Exec, EmitStmt, Run, Runnable, Frame, Concludes;
    var fuel: nat :| Exec(w, s, vars, fuel) == o;
    m := FrameCorrect(w, s, main, append, size, vars, cursors, fuel);
  }

  lemma FrameStays(w: World, s: Stmt, main: bool, append: bool, size: nat, vars: Vars, fuel: nat)
    requires Runnable(s, main, append, size) && Anchored(s, true)
    ensures !Exec(w, s, vars, fuel).Restart?
  {
    hide Exec, Anchored, WellFormed;
    StaysPut(w, s, false, true, vars, fuel);
  }

  /** From the run back to the meaning. */
  lemma MeansWhatItRuns(w: World, s: Stmt, main: bool, append: bool, size: nat, vars: Vars, cursors: map<nat, nat>, n: nat)
    returns (o: Outcome)
    requires Runnable(s, main, append, size) && Anchored(s, true)
    requires !Run(w, Frame(s, main, append, size), n, Entered(vars, cursors)).status.Running?
    ensures Means(w, s, vars, o) && !o.Hang? && !o.Restart?
    ensures Concludes(w, main, append, size, o, Run(w, Frame(s, main, append, size), n, Entered(vars, cursors)))
  {
    hide Exec, EmitStmt, Run, Runnable, Frame, Stuck;
    var b, c := Frame(s, main, append, size), Entered(vars, cursors);
    FrameSize(s, main, append, size);
    o := Exec(w, s, vars, n);
    FrameStays(w, s, main, append, size, vars, n);
    var m := FrameCorrect(w, s, main, append, size, vars, cursors, n);
    if o.Hang? {
      NeverStops(w, b, c, m);
    } else if m <= n {
      RunAdd(w, b, m, n - m, c);
      RunStopped(w, b, n - m, Run(w, b, m, c));
    } else {
      RunAdd(w, b, n, m - n, c);
      RunStopped(w, b, m - n, Run(w, b, n, c));
    }
  }

  /** The meaning of a program settles whether its run stops: a program whose fuel never suffices, and
      one that gets stuck in block unwinding, runs for ever; every other program stops. */
  lemma StopsExactly(w: World, s: Stmt, main: bool, append: bool, size: nat, vars: Vars, cursors: map<nat, nat>)
    requires Runnable(s, main, append, size)
    requires Anchored(s, true)
    ensures Stops(w, Frame(s, main, append, size), Entered(vars, cursors))
       <==> exists o :: Means(w, s, vars, o) && !o.Hang?
  {
    hide Exec, Run, Runnable, Frame, Concludes, Means, Anchored;
    var b, c := Frame(s, main, append, size), Entered(vars, cursors);
    if o :| Means(w, s, vars, o) && !o.Hang? {
      NeverRestart(w, s, main, append, size, vars, o);
      var m := RunsWhatItMeans(w, s, main, append, size, vars, cursors, o);
      StopsWhenConcluded(w, s, main, append, size, vars, o, Run(w, b, m, c));
    }
    if n: nat :| !Run(w, b, n, c).status.Running? {
      var o := MeansWhatItRuns(w, s, main, append, size, vars, cursors, n);
    }
  }

  lemma NeverRestart(w: World, s: Stmt, main: bool, append: bool, size: nat, vars: Vars, o: Outcome)
    requires Runnable(s, main, append, size) && Anchored(s, true) && Means(w, s, vars, o)
    ensures !o.Restart?
  {
    hide Exec, Runnable, Anchored;
    var f: nat :| Exec(w, s, vars, f) == o;
    FrameStays(w, s, main, append, size, vars, f);
  }

  lemma StopsWhenConcluded(w: World, s: Stmt, main: bool, append: bool, size: nat, vars: Vars, o: Outcome, d: Vm)
    requires Concludes(w, main, append, size, o, d) && Means(w, s, vars, o) && !o.Hang? && !o.Restart?
    ensures !d.status.Running?
  {
    hide Exec;
  }

  /** Stack discipline: in every state of its run, a runnable frame accesses nothing outside its stacks,
      its blocks have saved their depths in order, and the operand stack is no lower than its innermost
      block found it.  The process ends only where the meaning of the program says so. */
  lemma Disciplined(w: World, s: Stmt, main: bool, append: bool, size: nat, vars: Vars, cursors: map<nat, nat>, n: nat)
    requires Runnable(s, main, append, size)
    requires Anchored(s, true)
    ensures var d := Run(w, Frame(s, main, append, size), n, Entered(vars, cursors));
            && Nested(d) && !d.status.Corrupt?
            && (d.status.Fatal? ==> Exec(w, s, vars, n).Abort?)
  {
    hide Exec, EmitStmt, Run, Runnable, Frame, Nested, UnwindPass;
    var b, c := Frame(s, main, append, size), Entered(vars, cursors);
    FrameSize(s, main, append, size);
    FrameStays(w, s, main, append, size, vars, n);
    var m := FrameCorrect(w, s, main, append, size, vars, cursors, n);
    var e := Run(w, b, m, c);
    if m < n {
      RunAdd(w, b, m, n - m, c);
      assert m + (n - m) == n && Nested(e);
      if e.status.Running? {
        StuckForever(w, b, n - m, e);
      } else {
        RunStopped(w, b, n - m, e);
      }
      assert Run(w, b, n, c) == e;
    } else if !Run(w, b, n, c).status.Running? {
      RunAdd(w, b, n, m - n, c);
      RunStopped(w, b, m - n, Run(w, b, n, c));
    }
  }
}
