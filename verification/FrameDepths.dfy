/** In the run of a whole frame, every line has one depth on the block stack, and one on the operand stack
    but for what a finally part was entered with. */
module FrameDepths {
  import opened Values
  import opened Syntax
  import opened Semantics
  import opened Assembly
  import opened Emit
  import opened Machine
  import opened Assembler
  import opened Limits
  import opened Labels
  import opened Layout
  import opened Trace
  import opened Steps
  import opened Endings
  import opened SimulateExpr
  import opened SimulateStmt
  import opened Frames
  import opened Depths
  import opened DepthTyping
  import opened StmtDepths
  import opened Balance

  /** The frame of a program with the places of its lines, as the program's constructs fix them. */
  function ChartOf(w: World, s: Stmt, main: bool, append: bool, size: nat): Chart {
    Chart(w, FrameCode(s, main, append), main, size, EnvStmt(s, 0, Start))
  }

  /** Wherever control can go from one line to another, by falling through, by a jump or by unwinding, the
      two agree about both depths. */
  lemma FrameTyped(s: Stmt, main: bool, append: bool)
    requires WellFormed(s, false) && Anchored(s, true)
    ensures Typed(EnvStmt(s, 0, Start), {}, FrameCode(s, main, append), Some(Start), Some(Start))
  {
    hide Typed, EnvStmt, EmitStmt, WellFormed, Anchored;
    var env, tail := EnvStmt(s, 0, Start), FrameTail(main, append);
    assert env[0..] == env;
    StmtTyped(env, {}, s, 0, None, true, Start);
    Empty(env, {}, Some(Start));
    if append {
      assert Down(Up(Start, 1), 1) == Start;
      Two(env, {}, tail[0], tail[1], Some(Start));
    }
    Then(env, {}, EmitStmt(s, 0, None), tail, Some(Start), Some(Start), Some(Start));
  }

  lemma FrameCharted(w: World, s: Stmt, main: bool, append: bool, size: nat)
    requires WellFormed(s, false) && Anchored(s, true) && Fits(FrameCode(s, main, append), main)
    ensures Charted(ChartOf(w, s, main, append, size))
  {
    hide Typed, EnvStmt, EmitStmt, WellFormed, Anchored, Fits, Linkable, FrameCode;
    FrameTyped(s, main, append);
    FrameLinks(s, main, append);
  }

  /** Whenever the run of a frame is about to execute a line, as many blocks are open as its place says,
      and the operand stack is as deep as its place says, but for up to two values in each finally part
      that the line stands in: one if an exception is pending there, two for a return and its value.  Every open
      try has its marker on the stack, at the depth it was entered with.  No assumption is made about the size
      of the stacks or about how the program ends. */
  lemma LineDepths(w: World, s: Stmt, main: bool, append: bool, size: nat, vars: Vars, cursors: map<nat, nat>, n: nat, k: nat)
    returns (e: seq<nat>)
    requires WellFormed(s, false) && Anchored(s, true) && Fits(FrameCode(s, main, append), main)
    requires var p, d := FrameCode(s, main, append), Run(w, Frame(s, main, append, size), n, Entered(vars, cursors));
             k < |p| && p[k].Code? && Live(d) && d.ip == Off(p, k)
    ensures var z, d := ChartOf(w, s, main, append, size), Run(w, Frame(s, main, append, size), n, Entered(vars, cursors));
            && PlaceBy(z, k).Some?
            && var a := PlaceBy(z, k).value;
               && |d.blocks| == |a.regions| && Admits(a.regions, e) && |d.stack| == a.depth + Slack(e, |e|)
               && HeldUpTo(a.regions, e, d, |a.regions|)
  {
    hide EnvStmt, EmitStmt, WellFormed, Anchored, Fits, Charted, Fair, FrameCode, Run, Off, Assemble;
    var z := ChartOf(w, s, main, append, size);
    FrameCharted(w, s, main, append, size);
    StartFair(z, Entered(vars, cursors));
    RunFair(z, Entered(vars, cursors), n);
    e := OneDepth(z, Run(w, Frame(s, main, append, size), n, Entered(vars, cursors)), k);
  }

  /** Outside of finally parts a line is always entered at one and the same depth. */
  lemma SameDepth(w: World, s: Stmt, main: bool, append: bool, size: nat, vars: Vars, cursors: map<nat, nat>, n: nat, k: nat)
    requires WellFormed(s, false) && Anchored(s, true) && Fits(FrameCode(s, main, append), main)
    requires var p, d := FrameCode(s, main, append), Run(w, Frame(s, main, append, size), n, Entered(vars, cursors));
             k < |p| && p[k].Code? && Live(d) && d.ip == Off(p, k)
    requires var t := PlaceBy(ChartOf(w, s, main, append, size), k);
             t.Some? ==> forall r | r in t.value.regions :: r.InLoop? || !r.phase.Finishing?
    ensures var d, t := Run(w, Frame(s, main, append, size), n, Entered(vars, cursors)), PlaceBy(ChartOf(w, s, main, append, size), k);
            t.Some? && |d.blocks| == |t.value.regions| && |d.stack| == t.value.depth
  {
    hide EnvStmt, EmitStmt, WellFormed, Anchored, Fits, FrameCode, Run, Off, PlaceBy;
    var e := LineDepths(w, s, main, append, size, vars, cursors, n, k);
    NoFinally(PlaceBy(ChartOf(w, s, main, append, size), k).value.regions, e, |e|);
  }

  /** From any state of a run on, as long as block b stays open, what lay on the operand stack when it was
      opened stays there.  So an exception arrives at the catches of a try with the stack of its entry,
      the marker, and itself. */
  lemma FrameKept(w: World, s: Stmt, main: bool, append: bool, size: nat, vars: Vars, cursors: map<nat, nat>, m: nat, n: nat, b: nat)
    requires WellFormed(s, false) && Anchored(s, true) && Fits(FrameCode(s, main, append), main)
    requires forall i: nat :: m <= i <= m + n ==>
               var d := Run(w, Frame(s, main, append, size), i, Entered(vars, cursors));
               d.status.Running? && b < |d.blocks| && !Stuck(d, size)
    ensures var f := Frame(s, main, append, size);
            b < |Run(w, f, m, Entered(vars, cursors)).blocks|
            && Keeps(Run(w, f, m, Entered(vars, cursors)), Run(w, f, m + n, Entered(vars, cursors)), b)
  {
    hide EnvStmt, EmitStmt, WellFormed, Anchored, Fits, Charted, Fair, FrameCode, Run, Stuck, Keeps;
    var z, f, c := ChartOf(w, s, main, append, size), Frame(s, main, append, size), Entered(vars, cursors);
    FrameCharted(w, s, main, append, size);
    StartFair(z, c);
    RunFair(z, c, m);
    forall i: nat | i <= n
      ensures Run(w, f, i, Run(w, f, m, c)) == Run(w, f, m + i, c)
      ensures var d := Run(w, f, i, Run(w, f, m, c)); d.status.Running? && b < |d.blocks| && !Stuck(d, size)
    {
      RunAdd(w, f, m, i, c);
      assert m <= m + i <= m + n;
    }
    EntryKept(z, Run(w, f, m, c), n, b);
  }

  // ----- finally parts -----

  /** If its block ends normally or with a return, a frame that consists of a try comes to its finally part,
      with the marker on the stack, or with the value and the reason above it. */
  lemma FinallyReached(w: World, s: Stmt, main: bool, append: bool, size: nat, vars: Vars, cursors: map<nat, nat>, fuel: nat)
    returns (m: nat)
    requires s.Try? && Runnable(s, main, append, size)
    requires var o := Exec(w, s.body, vars, fuel); o.Normal? || o.Returned?
    ensures var p, d := FrameCode(s, main, append), Run(w, Frame(s, main, append, size), m, Entered(vars, cursors));
            && Live(d) && d.ip == Addr(p, L(TryFinally, 1)) && |d.blocks| == 1
            && |d.stack| == if Exec(w, s.body, vars, fuel).Normal? then 1 else 3
  {
    hide Exec, EmitStmt, EmitCatches, Off, Addr, Fits, Linkable, StackNeed, BlockNeed, WellFormed, HasCode, Ends, TryCode, Reached, FrameTail;
    var p, c := FrameCode(s, main, append), Entered(vars, cursors);
    var x := Ctx(w, p, main, size, c);
    FrameLinks(s, main, append);
    WholeCode(p);
    OffZero(p);
    Split(p, 0, EmitStmt(s, 0, None), FrameTail(main, append));
    Starts(x);
    NeedsOfTry(s, false);
    TryIsBody(s);
    var (cb, ch, cf) := TryPieces(s, 1, None);
    TryParts(x, 0, 1, cb, ch, cf);
    var i := SetupExcept(L(TryCatch, 1), L(TryFinally, 1), L(TryEndFinally, 1));
    var d := DoSetupExcept(x, 0, c, 0, [Op(i)], 0, i);
    var c2, n := d, 1;
    n, d := SimStmt(x, s.body, 1, 1, None, 1, c2, fuel);
    var o := Exec(w, s.body, vars, fuel);
    if o.Normal? {
      EndedNormally(x, c2, o, 1 + |cb|, None, 1, fuel, n, d);
      d := DoJump(x, n, d, 1 + |cb|, [Op(JumpForward(L(TryFinally, 1))), Lab(L(TryCatch, 1))], 0, L(TryFinally, 1));
    } else {
      EndedReturning(x, c2, o, 1 + |cb|, None, 1, fuel, n, d);
      OffMonotone(p, 1 + |cb|, 5 + |cb| + |ch|);
      d := Delays(x, n, d, [], o.v);
    }
    m := n + 1;
    ReachedRun(x, m, d);
  }

  lemma TryIsBody(s: Stmt)
    requires s.Try?
    ensures EmitStmt(s, 0, None) == TryBody(s, 1, None)
  {
  }

  /** try { if (x) return 1; } catch (exception e) { } finally { y = 0; } */
  function Sample(): Stmt {
    Try(If(Name("x"), Stmt.Return(Const(Num(1))), None), [Catch("exception", "e", Nop)],
        Let(Assign(None, Name("y"), Plain(Const(Num(0))))))
  }

  /** Finally parts do not have one operand depth: the first line of the one above is entered with one
      value on the stack if x is false, and with three if it is true. */
  lemma TwoDepths(w: World, size: nat) returns (m: nat, n: nat)
    requires size >= 10
    ensures var s, no, yes := Sample(), Entered(map["x" := Bool(false)], map[]), Entered(map["x" := Bool(true)], map[]);
            var p, b := FrameCode(s, true, false), Frame(s, true, false, size);
            var c, d := Run(w, b, m, no), Run(w, b, n, yes);
            && Live(c) && Live(d) && c.ip == d.ip == Addr(p, L(TryFinally, 1)) && |c.blocks| == |d.blocks| == 1
            && |c.stack| == 1 && |d.stack| == 3
  {
    hide Exec, FrameCode, Fits, Run, Off, Addr, Runnable;
    var s := Sample();
    SampleRunnable(size);
    SampleEnds(w, map["x" := Bool(false)]);
    SampleEnds(w, map["x" := Bool(true)]);
    m := FinallyReached(w, s, true, false, size, map["x" := Bool(false)], map[], 0);
    n := FinallyReached(w, s, true, false, size, map["x" := Bool(true)], map[], 0);
  }

  lemma SampleEnds(w: World, vars: Vars)
    requires "x" in vars && vars["x"].Bool?
    ensures Exec(w, Sample().body, vars, 0) == if vars["x"].b then Returned(vars, Num(1)) else Normal(vars)
  {
  }

  lemma SampleRunnable(size: nat)
    requires size >= 10
    ensures Sample().Try? && Runnable(Sample(), true, false, size)
  {
    hide Fits;
    var p := FrameCode(Sample(), true, false);
    SampleCode();
    Small(p, true);
  }

  /** The lines of the sample. */
  lemma SampleCode()
    ensures var p := FrameCode(Sample(), true, false);
            |p| < 100 && forall k :: 0 <= k < |p| && p[k].Code? ==> !p[k].i.PackTuple? && !p[k].i.UnpackTuple? && !p[k].i.IterFetch?
  {
    hide EmitStmt, EmitCatches;
    SampleBody();
    SampleCatches();
    SampleFinally();
    SampleTry();
  }

  lemma SampleTry()
    ensures var s := Sample();
            EmitStmt(s, 0, None) == TryCode(1, EmitStmt(s.body, 1, None), EmitCatches(s.catches, 0, 1, 2, None), EmitStmt(s.fin, 2, None))
  {
    hide TryCode, IfCode, EmitAssign, EmitExpr;
  }

  lemma SampleBody()
    ensures EmitStmt(Sample().body, 1, None) == IfCode(2, [Op(LoadId("x"))], [Op(LoadConst(Num(1))), Op(Instr.Return)], [])
  {
    hide IfCode;
    assert EmitStmt(Sample().body.thn, 2, None) == [Op(LoadConst(Num(1)))] + [Op(Instr.Return)];
    assert EmitStmt(Sample().body.thn, 2, None) == [Op(LoadConst(Num(1))), Op(Instr.Return)];
  }

  lemma SampleCatches()
    ensures EmitCatches(Sample().catches, 0, 1, 2, None) == CatchCode(1, 0, "exception", "e", [])
  {
    hide CatchCode;
    var catches := Sample().catches;
    assert catches[1..] == [] && EmitStmt(Nop, 2, None) == [];
    assert EmitCatches(catches[1..], 1, 1, 2, None) == [];
    var h := CatchCode(1, 0, "exception", "e", []);
    assert EmitCatches(catches, 0, 1, 2, None) == h + [] == h;
  }

  lemma SampleFinally()
    ensures EmitStmt(Sample().fin, 2, None) == [Op(LoadConst(Num(0))), Op(StoreId("y"))]
  {
    assert EmitAssign(Sample().fin.a, 2, 0) == [] + [Op(LoadConst(Num(0)))] + ([] + [] + [Op(StoreId("y"))]);
  }

  /** Short code without tuples fits into its operands. */
  lemma Small(p: seq<Line>, main: bool)
    requires |p| < 100 && forall k :: 0 <= k < |p| && p[k].Code? ==> !p[k].i.PackTuple? && !p[k].i.UnpackTuple? && !p[k].i.IterFetch?
    ensures Fits(p, main)
  {
    OffBound(p, |p|);
    TableBound(p, [], if main then [] else ["self"]);
  }

  lemma {:induction false} OffBound(p: seq<Line>, k: nat)
    requires k <= |p|
    ensures Off(p, k) <= 7 * k
  {
    if k > 0 { OffBound(p, k - 1); }
  }

  lemma {:induction false} TableBound(p: seq<Line>, cs: seq<Value>, ids: seq<Id>)
    ensures |ConstantTable(p, cs)| <= |cs| + |p| && |IdentifierTable(p, ids)| <= |ids| + |p|
  {
    if p != [] {
      TableBound(p[1..], if p[0].Code? && p[0].i.LoadConst? then AddOnce(cs, p[0].i.v) else cs,
                 if p[0].Code? && (p[0].i.LoadId? || p[0].i.StoreId?) then AddOnce(ids, p[0].i.id) else ids);
    }
  }
}
