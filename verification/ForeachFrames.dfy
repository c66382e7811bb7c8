/** A frame that consists of one foreach: its labels, and its run from end to end. */
module ForeachFrames {
  import opened Values
  import opened Syntax
  import opened Semantics
  import opened Assembly
  import opened Emit
  import opened Machine
  import opened Assembler
  import opened Limits
  import opened Labels
  import opened StmtLabels
  import opened Trace
  import opened Endings
  import opened Foreach
  import opened Frames

  // ----- labels -----

  /** Lines without labels. */
  lemma {:induction false} PlainFine(code: Snippet, l: Label)
    requires forall i :: 0 <= i < |code| ==> code[i].Code? && (code[i].i.PopTop? || code[i].i.StoreId?)
    ensures Without(code, l)
  {
    if code != [] { PlainFine(code[1..], l); }
  }

  lemma ForeachFine(n: nat, names: seq<Id>, c: Snippet, b: Snippet, e: Option<Snippet>, l: Label, n1: nat, n2: nat, n3: nat, cont2: Option<Label>)
    requires Fine(c, l, n, n1, None) && Fine(b, l, n1, n2, Some(L(ForeachLoop, n)))
    requires e.Some? ==> Fine(e.value, l, n2, n3, cont2)
    requires 0 < n <= n1 <= n2 <= n3 && (cont2.Some? ==> cont2.value == L(ForeachLoop, n))
    ensures Fine(ForeachCode(n, names, c, b, e), l, n - 1, n3, None)
  {
    hide Count, Open, Abs, ForeachHead, ForeachElseCode, ForeachTail, Stores;
    var jump := [Op(JumpAbsolute(L(ForeachLoop, n)))];
    Join7(c, ForeachHead(n, |names|, e.Some?), Stores(names), b, jump, ForeachElseCode(n, |names|, e), ForeachTail(n, |names|), l);
    Lit1(jump[0], l);
    StoresWithout(names, l);
    HeadFine(n, |names|, e.Some?, l);
    TailFine(n, |names|, l);
    if e.Some? { ElseFine(n, |names|, e.value, l); } else { NoElse(n, |names|, l); }
  }

  lemma StoresWithout(names: seq<Id>, l: Label)
    ensures Without(Stores(names), l)
  {
    PlainFine(Stores(names), l);
  }

  lemma NoElse(n: nat, k: nat, l: Label)
    ensures Without(ForeachElseCode(n, k, None), l)
  {
  }

  lemma HeadFine(n: nat, k: nat, withElse: bool, l: Label)
    ensures var h := ForeachHead(n, k, withElse);
            && Count(h, l) == (if l == L(ForeachLoop, n) then 1 else 0) && !Abs(h, l)
            && (Open(h, l) <==> l == L(ForeachEnd, n) || l == L(ForeachPreEnd, n) || (withElse && (l == L(ForeachElse, n) || l == L(ForeachPreElse, n))))
  {
    hide Count, Open, Abs;
    var setup := Op(if withElse then SetupElseLoop(L(ForeachEnd, n), L(ForeachElse, n)) else SetupLoop(L(ForeachEnd, n)));
    var first := if withElse then [Op(JumpIfFirstFalse(L(ForeachPreElse, n)))] else [];
    var s0, s1 := [Op(IterReset), setup, Lab(L(ForeachLoop, n)), Op(DupTop), Op(IterFetch(k))], [Op(JumpIfFalse(L(ForeachPreEnd, n))), Op(PopTop)];
    Join3(s0, first, s1, l);
    Lit0(l);
    Lit1(Op(JumpIfFirstFalse(L(ForeachPreElse, n))), l);
    Lit2(s1[0], s1[1], l);
    Lit5(s0[0], s0[1], s0[2], s0[3], s0[4], l);
  }

  lemma TailFine(n: nat, k: nat, l: Label)
    ensures var t := ForeachTail(n, k);
            Count(t, l) == (if l == L(ForeachPreEnd, n) || l == L(ForeachEnd, n) then 1 else 0) && !Abs(t, l) && !Open(t, l)
  {
    hide Count, Open, Abs, PopLines;
    Join3([Lab(L(ForeachPreEnd, n)), Op(PopTop)], PopLines(k), [Lab(L(ForeachEnd, n)), Op(PopBlock)], l);
    PopsWithout(k, l);
    Lit2(Lab(L(ForeachPreEnd, n)), Op(PopTop), l);
    Lit2(Lab(L(ForeachEnd, n)), Op(PopBlock), l);
  }

  lemma PopsWithout(k: nat, l: Label)
    ensures Without(PopLines(k), l)
  {
    PlainFine(PopLines(k), l);
  }

  lemma ElseFine(n: nat, k: nat, e: Snippet, l: Label)
    ensures var c := ForeachElseCode(n, k, Some(e));
            && Count(c, l) == Count(e, l) + (if l == L(ForeachPreElse, n) || l == L(ForeachElse, n) then 1 else 0)
            && (Open(c, l) <==> Open(e, l)) && (Abs(c, l) <==> Abs(e, l) || l == L(ForeachEnd, n))
  {
    hide Count, Open, Abs, PopLines;
    var s0, s1, s2 := [Lab(L(ForeachPreElse, n)), Op(PopTop)], [Lab(L(ForeachElse, n))], [Op(JumpAbsolute(L(ForeachEnd, n)))];
    Join5(s0, PopLines(k), s1, e, s2, l);
    PopsWithout(k, l);
    Lit2(s0[0], s0[1], l);
    Lit1(s1[0], l);
    Lit1(s2[0], l);
  }

  /** The labels of a whole foreach. */
  lemma WholeFine(s: Foreach, n: nat, l: Label)
    requires Iterable(s)
    ensures Fine(ForeachBody(s, n + 1), l, n, n + ForeachCount(s), None)
  {
    hide Count, Open, Abs, Fine, ForeachCode, EmitExpr, EmitStmt, WellFormed;
    var here := Some(L(ForeachLoop, n + 1));
    var n1 := n + 1 + ExprCount(s.subject);
    var n2, cont2 := n1 + StmtCount(s.body), Kept(here, Drift(s.body));
    ExprFine(s.subject, n + 1, l);
    StmtFine(s.body, n1, here, l);
    if s.els.Some? { StmtFine(s.els.value, n2, cont2, l); }
    ForeachFine(n + 1, s.names, EmitExpr(s.subject, n + 1), BodyCode(s, n + 1), ElseBody(s, n + 1), l, n1, n2, n + ForeachCount(s), cont2);
  }

  // ----- frames -----

  function ForeachFrame(s: Foreach, main: bool, append: bool): Snippet {
    ForeachBody(s, 1) + FrameTail(main, append)
  }

  /** Label closure for a frame with a foreach. */
  lemma ForeachLinks(s: Foreach, main: bool, append: bool)
    requires Iterable(s)
    ensures Linkable(ForeachFrame(s, main, append))
  {
    hide Count, Open, Abs, IndexOf, Linkable, ForeachBody, ForeachCount, Iterable;
    var p, tail := ForeachFrame(s, main, append), FrameTail(main, append);
    forall l ensures Fine(p, l, 0, ForeachCount(s), None) {
      WholeFine(s, 0, l);
      Join2(ForeachBody(s, 1), tail, l);
      Lit0(l);
      if append { Lit2(tail[0], tail[1], l); }
    }
    FineLinks(p, ForeachCount(s));
  }

  predicate ForeachRunnable(s: Foreach, main: bool, append: bool, size: nat) {
    && Iterable(s)
    && Fits(ForeachFrame(s, main, append), main)
    && ForeachNeed(s) <= size
    && ForeachBlocks(s) <= BLOCK_MAX_DEPTH
  }

  /** What a foreach over a subject means. */
  function Meaning(w: World, s: Foreach, vars: Vars, fuel: nat): Outcome
    requires Iterable(s)
  {
    var r := Eval(w, s.subject, vars);
    if !r.Ok? then Failure(vars, r)
    else if !r.v.List? then Threw(vars, w.notIterator)
    else Rounds(w, s, ItemsOf(w, r.v.ref), 0, false, vars, fuel).o
  }

  /** The bytes of a frame with a foreach do what it means. */
  lemma ForeachCorrect(w: World, s: Foreach, main: bool, append: bool, size: nat, vars: Vars, cursors: map<nat, nat>, fuel: nat)
    returns (m: nat)
    requires ForeachRunnable(s, main, append, size)
    ensures var o := Meaning(w, s, vars, fuel);
            && Concludes(w, main, append, size, o, Run(w, Assemble(ForeachFrame(s, main, append), main, size), m, Entered(vars, cursors)))
            && (o.Timeout? ==> m >= fuel)
  {
    hide Eval, Rounds, ForeachBody, Off, Addr, Fits, Linkable, Iterable, HasCode, FrameTail, Ends, Concludes, TablesOf, CodeBytes, Reached,
      ForeachBlocks;
    var p, c := ForeachFrame(s, main, append), Entered(vars, cursors);
    var x := Ctx(w, p, main, size, c);
    var code, tail := ForeachBody(s, 1), FrameTail(main, append);
    PartsNeed(s);
    ForeachLinks(s, main, append);
    WholeCode(p);
    OffZero(p);
    Split(p, 0, code, tail);
    Starts(x);
    var n, d := SimForeach(x, s, 0, 1, 0, c, fuel);
    var r := Eval(w, s.subject, vars);
    var after := c;
    if r.Ok? && r.v.List? {
      after := c.(stack := c.stack + [r.v], cursors := c.cursors[r.v.ref := Rounds(w, s, ItemsOf(w, r.v.ref), 0, false, vars, fuel).at]);
    }
    var e;
    m, e := EndFrame(x, append, after, Meaning(w, s, vars, fuel), |code|, fuel, n, d);
    ReachedRun(x, m, e);
  }

  /** If no body leaves the loop, the run of the whole frame ends with the variables after exactly one
      round per index, in order. */
  lemma EachIndexOnce(w: World, s: Foreach, main: bool, append: bool, size: nat, vars: Vars, cursors: map<nat, nat>,
                      states: seq<Vars>, fuel: nat)
    returns (m: nat)
    requires ForeachRunnable(s, main, append, size)
    requires var r := Eval(w, s.subject, vars);
             && r.Ok? && r.v.List? && AllRounds(w, s, ItemsOf(w, r.v.ref), states, fuel) && states[0] == vars
             && (ItemsOf(w, r.v.ref) != [] || s.els.None?)
    ensures var d := Run(w, Assemble(ForeachFrame(s, main, append), main, size), m, Entered(vars, cursors));
            d.status.Left? && d.vars == states[|states| - 1]
  {
    hide Eval, Exec, Run, Assemble, Fits, Iterable, Rounds, ForeachFrame, ForeachBlocks, ForeachNeed;
    m := ForeachCorrect(w, s, main, append, size, vars, cursors, fuel);
    var items := ItemsOf(w, Eval(w, s.subject, vars).v.ref);
    OncePerIndex(w, s, items, states, 0, fuel);
  }
}
