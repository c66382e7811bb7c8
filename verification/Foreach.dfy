/** Foreach over a list.  It is kept apart from the other statements because it leaves its iterator on the
    operand stack. */
module Foreach {
  import opened Values
  import opened Syntax
  import opened Semantics
  import opened Assembly
  import opened Emit
  import opened Machine
  import opened Assembler
  import opened Limits
  import opened Trace
  import opened Steps
  import opened SimulateExpr
  import opened Endings
  import opened SimulateStmt

  /** One name takes the value, two the key and the value, three the metadata as well. */
  datatype Foreach = Foreach(subject: Expr, names: seq<Id>, body: Stmt, els: Option<Stmt>)

  predicate Iterable(s: Foreach) {
    && 1 <= |s.names| <= 3
    && WellFormed(s.body, true) && (s.els.Some? ==> WellFormed(s.els.value, Drift(s.body) == 0))
  }

  // ----- code -----

  function Stores(names: seq<Id>): (code: Snippet)
    ensures |code| == |names|
  {
    seq(|names|, i requires 0 <= i < |names| => Op(StoreId(names[i])))
  }

  function PopLines(k: nat): (code: Snippet)
    ensures |code| == k
  {
    seq(k, i => Op(PopTop))
  }

  function ForeachHead(n: nat, k: nat, withElse: bool): Snippet {
    [Op(IterReset), Op(if withElse then SetupElseLoop(L(ForeachEnd, n), L(ForeachElse, n)) else SetupLoop(L(ForeachEnd, n))),
     Lab(L(ForeachLoop, n)), Op(DupTop), Op(IterFetch(k))]
    + (if withElse then [Op(JumpIfFirstFalse(L(ForeachPreElse, n)))] else [])
    + [Op(JumpIfFalse(L(ForeachPreEnd, n))), Op(PopTop)]
  }

  function ForeachElseCode(n: nat, k: nat, e: Option<Snippet>): Snippet {
    if e.None? then [] else
    [Lab(L(ForeachPreElse, n)), Op(PopTop)] + PopLines(k) + [Lab(L(ForeachElse, n))] + e.value + [Op(JumpAbsolute(L(ForeachEnd, n)))]
  }

  function ForeachTail(n: nat, k: nat): Snippet {
    [Lab(L(ForeachPreEnd, n)), Op(PopTop)] + PopLines(k) + [Lab(L(ForeachEnd, n)), Op(PopBlock)]
  }

  function ForeachCode(n: nat, names: seq<Id>, c: Snippet, b: Snippet, e: Option<Snippet>): Snippet {
    c + ForeachHead(n, |names|, e.Some?) + Stores(names) + b + [Op(JumpAbsolute(L(ForeachLoop, n)))]
    + ForeachElseCode(n, |names|, e) + ForeachTail(n, |names|)
  }

  function ForeachCount(s: Foreach): nat {
    1 + ExprCount(s.subject) + StmtCount(s.body) + (if s.els.Some? then StmtCount(s.els.value) else 0)
  }

  /** The code of foreach number l. */
  function ForeachBody(s: Foreach, l: nat): Snippet {
    ForeachCode(l, s.names, EmitExpr(s.subject, l), EmitStmt(s.body, l + ExprCount(s.subject), Some(L(ForeachLoop, l))), ElseBody(s, l))
  }

  function ElseBody(s: Foreach, l: nat): (e: Option<Snippet>)
    ensures e.Some? == s.els.Some?
  {
    if s.els.None? then None
    else Some(EmitStmt(s.els.value, l + ExprCount(s.subject) + StmtCount(s.body), Kept(Some(L(ForeachLoop, l)), Drift(s.body))))
  }

  // ----- meaning -----

  /** The names bound to element i of a list. */
  function Bound(names: seq<Id>, v: Value, i: nat, vars: Vars): Vars
    requires 1 <= |names| <= 3
  {
    if |names| == 1 then vars[names[0] := v]
    else if |names| == 2 then vars[names[0] := Num(i)][names[1] := v]
    else vars[names[0] := Num(i)][names[1] := v][names[2] := Null]
  }

  /** How the loop ends, and where the cursor of the list is then. */
  datatype Iterated = Iterated(o: Outcome, at: nat)

  /** The rounds from element i on.  The else part runs when the very first fetch finds nothing, and on
      `breakelse`. */
  function Rounds(w: World, s: Foreach, items: seq<Value>, i: nat, visited: bool, vars: Vars, fuel: nat): (r: Iterated)
    requires Iterable(s) && i <= |items|
    ensures Settled(r.o)
    decreases fuel, |items| - i, if visited then 0 else 2
  {
    if i == |items| then
      if s.els.Some? && !visited then ElseRound(w, s, items, i, vars, fuel) else Iterated(Normal(vars), i)
    else
      var o := Exec(w, s.body, Bound(s.names, items[i], i, vars), fuel);
      if Again(o) then Rounds(w, s, items, i + 1, true, o.vars, fuel)
      else if o.BrokeElse? then
        if s.els.Some? then ElseRound(w, s, items, i + 1, o.vars, fuel) else Iterated(Restart(o.vars), i + 1)
      else Iterated(Escape(o), i + 1)
  }

  function ElseRound(w: World, s: Foreach, items: seq<Value>, i: nat, vars: Vars, fuel: nat): (r: Iterated)
    requires Iterable(s) && s.els.Some? && i <= |items|
    ensures Settled(r.o)
    decreases fuel, |items| - i, 1
  {
    var o := Exec(w, s.els.value, vars, fuel);
    if o.Continued? then Rounds(w, s, items, i, true, o.vars, fuel)
    else if o.BrokeElse? then (if fuel == 0 then Iterated(Timeout, i) else ElseRound(w, s, items, i, o.vars, fuel - 1))
    else Iterated(Escape(o), i)
  }

  /** A run of rounds in which no body leaves the loop: states[i] are the variables before round i. */
  ghost predicate AllRounds(w: World, s: Foreach, items: seq<Value>, states: seq<Vars>, fuel: nat)
    requires Iterable(s)
  {
    && |states| == |items| + 1
    && forall i :: 0 <= i < |items| ==>
         var o := Exec(w, s.body, Bound(s.names, items[i], i, states[i]), fuel);
         Again(o) && o.vars == states[i + 1]
  }

  /** If no body leaves the loop, it runs exactly once for each index, in order, with the right key and
      value, and then the loop is over; the else part takes its place exactly when the list is empty. */
  lemma {:induction false} OncePerIndex(w: World, s: Foreach, items: seq<Value>, states: seq<Vars>, i: nat, fuel: nat)
    requires Iterable(s) && AllRounds(w, s, items, states, fuel) && i <= |items|
    ensures Rounds(w, s, items, i, i > 0, states[i], fuel)
         == if items == [] && s.els.Some? then ElseRound(w, s, items, 0, states[0], fuel)
            else Iterated(Normal(states[|items|]), |items|)
    decreases |items| - i
  {
    hide Exec, Bound, ElseRound;
    if i < |items| { OncePerIndex(w, s, items, states, i + 1, fuel); }
  }

  // ----- room -----

  function ForeachNeed(s: Foreach): nat {
    Max(ExprNeed(s.subject), Max(|s.names| + 2, 1 + Max(StackNeed(s.body), if s.els.Some? then StackNeed(s.els.value) else 0)))
  }

  function ForeachBlocks(s: Foreach): nat {
    1 + Max(BlockNeed(s.body), if s.els.Some? then BlockNeed(s.els.value) else 0)
  }

  lemma PartsNeed(s: Foreach)
    ensures ExprNeed(s.subject) <= ForeachNeed(s) && |s.names| + 2 <= ForeachNeed(s) && 1 + StackNeed(s.body) <= ForeachNeed(s)
    ensures s.els.Some? ==> 1 + StackNeed(s.els.value) <= ForeachNeed(s) && BlockNeed(s.els.value) < ForeachBlocks(s)
    ensures BlockNeed(s.body) < ForeachBlocks(s)
  {
  }

  // ----- where the parts stand -----

  /** The code of foreach number l stands at k. */
  ghost predicate ForeachAt(x: Ctx, s: Foreach, k: nat, l: nat) {
    Iterable(s) && Sound(x) && HasCode(x.p, k, ForeachBody(s, l))
  }

  function HeadAt(s: Foreach, k: nat, l: nat): nat {
    k + |EmitExpr(s.subject, l)|
  }

  function StoresAt(s: Foreach, k: nat, l: nat): nat {
    HeadAt(s, k, l) + |ForeachHead(l, |s.names|, s.els.Some?)|
  }

  function BodyAt(s: Foreach, k: nat, l: nat): nat {
    StoresAt(s, k, l) + |s.names|
  }

  function BodyCode(s: Foreach, l: nat): Snippet {
    EmitStmt(s.body, l + ExprCount(s.subject), Some(L(ForeachLoop, l)))
  }

  function ElseAt(s: Foreach, k: nat, l: nat): nat {
    BodyAt(s, k, l) + |BodyCode(s, l)| + 1
  }

  function TailAt(s: Foreach, k: nat, l: nat): nat {
    ElseAt(s, k, l) + |ForeachElseCode(l, |s.names|, ElseBody(s, l))|
  }

  lemma Parts(x: Ctx, s: Foreach, k: nat, l: nat)
    requires ForeachAt(x, s, k, l)
    ensures HasCode(x.p, k, EmitExpr(s.subject, l))
    ensures HasCode(x.p, HeadAt(s, k, l), ForeachHead(l, |s.names|, s.els.Some?))
    ensures HasCode(x.p, StoresAt(s, k, l), Stores(s.names))
    ensures HasCode(x.p, BodyAt(s, k, l), BodyCode(s, l))
    ensures HasCode(x.p, ElseAt(s, k, l) - 1, [Op(JumpAbsolute(L(ForeachLoop, l)))])
    ensures HasCode(x.p, ElseAt(s, k, l), ForeachElseCode(l, |s.names|, ElseBody(s, l)))
    ensures HasCode(x.p, TailAt(s, k, l), ForeachTail(l, |s.names|))
    ensures k + |ForeachBody(s, l)| == TailAt(s, k, l) + 4 + |s.names|
  {
    hide HasCode, Sound, ForeachHead, ForeachElseCode, EmitExpr, EmitStmt, ExprCount, StmtCount;
    TailLength(l, |s.names|);
    Split7(x.p, k, EmitExpr(s.subject, l), ForeachHead(l, |s.names|, s.els.Some?), Stores(s.names), BodyCode(s, l),
           [Op(JumpAbsolute(L(ForeachLoop, l)))], ForeachElseCode(l, |s.names|, ElseBody(s, l)), ForeachTail(l, |s.names|));
  }

  lemma TailLength(n: nat, k: nat)
    ensures |ForeachTail(n, k)| == k + 4
    ensures ForeachTail(n, k)[0] == Lab(L(ForeachPreEnd, n)) && ForeachTail(n, k)[k + 2] == Lab(L(ForeachEnd, n))
    ensures ForeachTail(n, k)[1] == Op(PopTop) && ForeachTail(n, k)[k + 3] == Op(PopBlock)
    ensures forall i :: 2 <= i < k + 2 ==> ForeachTail(n, k)[i] == Op(PopTop)
  {
  }

  lemma HeadLines(n: nat, k: nat, withElse: bool)
    ensures var h, f := ForeachHead(n, k, withElse), if withElse then 1 else 0;
            && |h| == 7 + f && h[0] == Op(IterReset) && h[2] == Lab(L(ForeachLoop, n)) && h[3] == Op(DupTop) && h[4] == Op(IterFetch(k))
            && h[1] == Op(if withElse then SetupElseLoop(L(ForeachEnd, n), L(ForeachElse, n)) else SetupLoop(L(ForeachEnd, n)))
            && (withElse ==> h[5] == Op(JumpIfFirstFalse(L(ForeachPreElse, n))))
            && h[5 + f] == Op(JumpIfFalse(L(ForeachPreEnd, n))) && h[6 + f] == Op(PopTop)
  {
  }

  /** The offsets of the labels. */
  lemma Places(x: Ctx, s: Foreach, k: nat, l: nat)
    requires ForeachAt(x, s, k, l)
    ensures Addr(x.p, L(ForeachLoop, l)) == Off(x.p, HeadAt(s, k, l) + 2) == Off(x.p, HeadAt(s, k, l) + 3)
    ensures Addr(x.p, L(ForeachPreEnd, l)) == Off(x.p, TailAt(s, k, l) + 1)
    ensures Addr(x.p, L(ForeachEnd, l)) == Off(x.p, TailAt(s, k, l) + 2 + |s.names|) == Off(x.p, TailAt(s, k, l) + 3 + |s.names|)
  {
    hide HasCode, Sound, Off, Addr, ForeachHead, ForeachTail, ForeachElseCode, EmitExpr, EmitStmt;
    Parts(x, s, k, l);
    HeadLines(l, |s.names|, s.els.Some?);
    TailLength(l, |s.names|);
    LabelAt(x, HeadAt(s, k, l), ForeachHead(l, |s.names|, s.els.Some?), 2);
    LabelAt(x, TailAt(s, k, l), ForeachTail(l, |s.names|), 0);
    LabelAt(x, TailAt(s, k, l), ForeachTail(l, |s.names|), 2 + |s.names|);
  }

  lemma ElseParts(x: Ctx, s: Foreach, k: nat, l: nat)
    requires ForeachAt(x, s, k, l) && s.els.Some?
    ensures var at, i, e := ElseAt(s, k, l), |s.names|, ElseBody(s, l).value;
            && HasCode(x.p, at, [Lab(L(ForeachPreElse, l)), Op(PopTop)]) && HasCode(x.p, at + 2, PopLines(i))
            && HasCode(x.p, at + 3 + i, e) && HasCode(x.p, at + 3 + i + |e|, [Op(JumpAbsolute(L(ForeachEnd, l)))])
            && Addr(x.p, L(ForeachPreElse, l)) == Off(x.p, at + 1)
            && Addr(x.p, L(ForeachElse, l)) == Off(x.p, at + 2 + i) == Off(x.p, at + 3 + i)
  {
    hide HasCode, Sound, Off, Addr, ForeachHead, ForeachTail, EmitExpr, EmitStmt;
    Parts(x, s, k, l);
    var at, i, e := ElseAt(s, k, l), |s.names|, ElseBody(s, l).value;
    var s0, s1 := [Lab(L(ForeachPreElse, l)), Op(PopTop)], [Lab(L(ForeachElse, l))];
    Split5(x.p, at, s0, PopLines(i), s1, e, [Op(JumpAbsolute(L(ForeachEnd, l)))]);
    LabelAt(x, at, s0, 0);
    LabelAt(x, at + 2 + i, s1, 0);
  }

  // ----- single steps -----

  lemma DoReset(x: Ctx, n: nat, c: Vm, k: nat, code: seq<Line>, j: nat) returns (d: Vm)
    requires At(x, n, c, k, code, j, IterReset) && Floor(c) < |c.stack|
    ensures Reached(x, n + 1, d)
    ensures d == IterResetStep(x.w, c.(ip := Off(x.p, k + j + 1)))
  {
    hide Reached, Sound, HasCode, Off, Addr;
    d := DoLine(x, n, c, k, code, j, IterReset);
  }

  function ItemsOf(w: World, ref: nat): seq<Value> {
    if ref in w.lists then w.lists[ref] else []
  }

  /** A fetch from a list whose cursor is at i. */
  lemma DoFetch(x: Ctx, n: nat, c: Vm, k: nat, code: seq<Line>, j: nat, f: nat, base: seq<Value>, ref: nat, i: nat) returns (d: Vm)
    requires At(x, n, c, k, code, j, IterFetch(f)) && Floor(c) < |c.stack|
    requires c.stack == base + [List(ref)] && |base| + f + 1 <= x.size && 1 <= f <= 3
    requires ref in c.cursors && c.cursors[ref] == i <= |ItemsOf(x.w, ref)|
    ensures Reached(x, n + 1, d)
    ensures var items := ItemsOf(x.w, ref);
            d == c.(ip := Off(x.p, k + j + 1), stack := base + Fetched(f, ItemOrNull(items, i), i, i < |items|),
                    cursors := if i < |items| then c.cursors[ref := i + 1] else c.cursors)
  {
    hide Reached, Sound, HasCode, Off, Addr, PushAll;
    d := DoLine(x, n, c, k, code, j, IterFetch(f));
    var items := ItemsOf(x.w, ref);
    var c1 := c.(ip := Off(x.p, k + j + 1), stack := base);
    assert c.stack[..|c.stack| - 1] == base;
    PushAllFits(c1, Fetched(f, ItemOrNull(items, i), i, i < |items|), x.size);
  }

  /** A run of POP_TOPs takes all values above base. */
  lemma {:induction false} SimPops(x: Ctx, k: nat, code: seq<Line>, j: nat, count: nat, n: nat, c: Vm, base: seq<Value>)
    returns (m: nat, d: Vm)
    requires Here(x, n, c, k + j) && HasCode(x.p, k, code) && j + count <= |code| && forall i :: j <= i < j + count ==> code[i] == Op(PopTop)
    requires |c.stack| == |base| + count && base <= c.stack && Floor(c) <= |base|
    ensures m >= n && Reached(x, m, d) && d == c.(ip := Off(x.p, k + j + count), stack := base)
    decreases count
  {
    hide Reached, Sound, HasCode, Off, Addr;
    m, d := n, c;
    if count > 0 {
      d := DoPop(x, n, c, k, code, j);
      m, d := SimPops(x, k, code, j + 1, count - 1, n + 1, d, base);
    }
  }

  /** The values that a fetch leaves for the names, the first name's on top. */
  function Offered(f: nat, v: Value, i: nat): seq<Value> {
    (if f == 3 then [Null] else []) + [v] + (if f >= 2 then [Num(i)] else [])
  }

  lemma SimStores(x: Ctx, names: seq<Id>, k: nat, n: nat, c: Vm, base: seq<Value>, v: Value, i: nat) returns (m: nat, d: Vm)
    requires 1 <= |names| <= 3 && Here(x, n, c, k) && HasCode(x.p, k, Stores(names))
    requires c.stack == base + Offered(|names|, v, i) && Floor(c) <= |base|
    ensures m >= n && Reached(x, m, d)
    ensures d == c.(ip := Off(x.p, k + |names|), stack := base, vars := Bound(names, v, i, c.vars))
  {
    hide Reached, Sound, HasCode, Off, Addr;
    var code := Stores(names);
    var key, pad := if |names| >= 2 then [Num(i)] else [], if |names| == 3 then [Null] else [];
    assert c.stack == base + pad + [v] + key;
    d := DoStore(x, n, c, k, code, 0, names[0]);
    m := n + 1;
    if |names| > 1 {
      assert d.stack == base + pad + [v];
      d := DoStore(x, m, d, k, code, 1, names[1]);
      m := n + 2;
    }
    if |names| > 2 {
      assert d.stack == base + [Null];
      d := DoStore(x, m, d, k, code, 2, names[2]);
      m := n + 3;
    }
    assert d.stack == base;
  }

  // ----- runs -----

  /** The loop over list ref stands at its label, with its iterator on the stack above base. */
  ghost predicate Looping(x: Ctx, s: Foreach, l: nat, base: seq<Value>, ref: nat, visited: bool, c: Vm) {
    && |base| + ForeachNeed(s) <= x.size && c.blocks != [] && |c.blocks| - 1 + ForeachBlocks(s) <= BLOCK_MAX_DEPTH
    && c.stack == base + [List(ref)]
    && c.blocks[|c.blocks| - 1]
       == LoopBlock(Addr(x.p, L(ForeachEnd, l)), if s.els.Some? then Addr(x.p, L(ForeachElse, l)) else 0, |base| + 1, s.els.Some? && visited)
  }

  /** The machine around the loop, with the cursor of the list at `at`. */
  function Left(c: Vm, ref: nat, at: nat): Vm
    requires c.blocks != []
  {
    c.(blocks := c.blocks[..|c.blocks| - 1], cursors := c.cursors[ref := at])
  }

  lemma CursorTwice(c: Vm, d: Vm, ref: nat, i: nat, at: nat)
    requires d.cursors == c.cursors[ref := i]
    ensures d.cursors[ref := at] == c.cursors[ref := at]
  {
  }

  /** The fetch of element i, and the first test. */
  lemma SimFetch(x: Ctx, s: Foreach, k: nat, l: nat, base: seq<Value>, ref: nat, i: nat, visited: bool, n: nat, c: Vm)
    returns (m: nat, d: Vm)
    requires ForeachAt(x, s, k, l) && Looping(x, s, l, base, ref, visited, c) && Here(x, n, c, HeadAt(s, k, l) + 3)
    requires ref in c.cursors && c.cursors[ref] == i <= |ItemsOf(x.w, ref)|
    ensures m >= n && Reached(x, m, d)
    ensures var items, last := ItemsOf(x.w, ref), |c.blocks| - 1;
            var more := i < |items|;
            var first := s.els.Some? && !more && !visited;
            d == c.(ip := if first then Addr(x.p, L(ForeachPreElse, l)) else Off(x.p, StoresAt(s, k, l) - 2),
                    stack := base + [List(ref)] + Offered(|s.names|, ItemOrNull(items, i), i) + [Bool(more)],
                    blocks := if s.els.Some? then c.blocks[last := LoopBlock(Addr(x.p, L(ForeachEnd, l)), Addr(x.p, L(ForeachElse, l)), |base| + 1, true)]
                              else c.blocks,
                    cursors := if more then c.cursors[ref := i + 1] else c.cursors)
  {
    hide Reached, Sound, HasCode, Off, Addr, ForeachHead, ForeachTail, ForeachElseCode, ForeachBody, ForeachNeed, ForeachBlocks, EmitExpr, EmitStmt;
    Parts(x, s, k, l);
    PartsNeed(s);
    HeadLines(l, |s.names|, s.els.Some?);
    var h, k1, f := ForeachHead(l, |s.names|, s.els.Some?), HeadAt(s, k, l), |s.names|;
    d := DoDup(x, n, c, k1, h, 3);
    var below, items := base + [List(ref)], ItemsOf(x.w, ref);
    d := DoFetch(x, n + 1, d, k1, h, 4, f, below, ref, i);
    m := n + 2;
    assert below + Fetched(f, ItemOrNull(items, i), i, i < |items|) == below + Offered(f, ItemOrNull(items, i), i) + [Bool(i < |items|)];
    if s.els.Some? {
      d := DoFirstTest(x, m, d, k1, h, 5, L(ForeachPreElse, l));
      m := n + 3;
    }
  }

  /** The state after a fetch: what it offers lies above the iterator, and the truth value on top. */
  ghost predicate Fetching(x: Ctx, s: Foreach, l: nat, base: seq<Value>, ref: nat, i: nat, more: bool, c: Vm) {
    && |base| + ForeachNeed(s) <= x.size && c.blocks != [] && |c.blocks| - 1 + ForeachBlocks(s) <= BLOCK_MAX_DEPTH
    && c.stack == base + [List(ref)] + Offered(|s.names|, ItemOrNull(ItemsOf(x.w, ref), i), i) + [Bool(more)]
    && c.blocks[|c.blocks| - 1]
       == LoopBlock(Addr(x.p, L(ForeachEnd, l)), if s.els.Some? then Addr(x.p, L(ForeachElse, l)) else 0, |base| + 1, s.els.Some?)
  }

  /** The end of the loop, when a fetch that is not the first one finds nothing. */
  lemma SimOver(x: Ctx, s: Foreach, k: nat, l: nat, base: seq<Value>, ref: nat, i: nat, n: nat, c: Vm, fuel: nat)
    returns (m: nat, d: Vm)
    requires ForeachAt(x, s, k, l) && Fetching(x, s, l, base, ref, i, false, c) && Here(x, n, c, StoresAt(s, k, l) - 2)
    requires ref in c.cursors && c.cursors[ref] == i
    ensures Ends(x, Left(c.(stack := base + [List(ref)]), ref, i), Normal(c.vars), k + |ForeachBody(s, l)|, None, n, fuel, m, d)
  {
    hide Reached, Sound, HasCode, Off, Addr, ForeachHead, ForeachTail, ForeachElseCode, ForeachBody, ForeachNeed, ForeachBlocks, EmitExpr, EmitStmt, Ends;
    Parts(x, s, k, l);
    Places(x, s, k, l);
    HeadLines(l, |s.names|, s.els.Some?);
    TailLength(l, |s.names|);
    var h, t, f := ForeachHead(l, |s.names|, s.els.Some?), ForeachTail(l, |s.names|), |s.names|;
    var k1, kt := HeadAt(s, k, l), TailAt(s, k, l);
    d := DoTest(x, n, c, k1, h, |h| - 2, JumpIfFalse(L(ForeachPreEnd, l)));
    m, d := SimPops(x, kt, t, 1, f + 1, n + 1, d, base + [List(ref)]);
    d := DoPopBlock(x, m, d, kt, t, f + 3);
    m := m + 1;
    assert c.cursors[ref := i] == c.cursors;
    EndsNormal(x, Left(c.(stack := base + [List(ref)]), ref, i), k + |ForeachBody(s, l)|, None, n, fuel, m, d);
  }

  /** From a fetch that found an element to the body. */
  lemma SimBind(x: Ctx, s: Foreach, k: nat, l: nat, base: seq<Value>, ref: nat, i: nat, n: nat, c: Vm)
    returns (m: nat, d: Vm)
    requires ForeachAt(x, s, k, l) && Fetching(x, s, l, base, ref, i, true, c) && Here(x, n, c, StoresAt(s, k, l) - 2)
    requires i < |ItemsOf(x.w, ref)|
    ensures m >= n && Reached(x, m, d)
    ensures d == c.(ip := Off(x.p, BodyAt(s, k, l)), stack := base + [List(ref)], vars := Bound(s.names, ItemsOf(x.w, ref)[i], i, c.vars))
  {
    hide Reached, Sound, HasCode, Off, Addr, ForeachHead, ForeachTail, ForeachElseCode, ForeachBody, ForeachNeed, ForeachBlocks, EmitExpr, EmitStmt, Bound, Stores;
    Parts(x, s, k, l);
    HeadLines(l, |s.names|, s.els.Some?);
    var h, k1 := ForeachHead(l, |s.names|, s.els.Some?), HeadAt(s, k, l);
    d := DoTest(x, n, c, k1, h, |h| - 2, JumpIfFalse(L(ForeachPreEnd, l)));
    assert d.stack[..|d.stack| - 1] == base + [List(ref)] + Offered(|s.names|, ItemsOf(x.w, ref)[i], i);
    d := DoPop(x, n + 1, d, k1, h, |h| - 1);
    m, d := SimStores(x, s.names, StoresAt(s, k, l), n + 2, d, base + [List(ref)], ItemsOf(x.w, ref)[i], i);
  }

  /** From a first fetch that found nothing to the else part. */
  lemma SimToElse(x: Ctx, s: Foreach, k: nat, l: nat, base: seq<Value>, ref: nat, i: nat, n: nat, c: Vm)
    returns (m: nat, d: Vm)
    requires ForeachAt(x, s, k, l) && s.els.Some? && Fetching(x, s, l, base, ref, i, false, c)
    requires Here(x, n, c, ElseAt(s, k, l) + 1)
    ensures m >= n && Reached(x, m, d)
    ensures d == c.(ip := Off(x.p, ElseAt(s, k, l) + 3 + |s.names|), stack := base + [List(ref)])
  {
    hide Reached, Sound, HasCode, Off, Addr, ForeachHead, ForeachTail, ForeachElseCode, ForeachBody, ForeachNeed, ForeachBlocks, EmitExpr, EmitStmt, ElseBody;
    ElseParts(x, s, k, l);
    var at := ElseAt(s, k, l);
    d := DoPop(x, n, c, at, [Lab(L(ForeachPreElse, l)), Op(PopTop)], 1);
    m, d := SimPops(x, at + 2, PopLines(|s.names|), 0, |s.names|, n + 1, d, base + [List(ref)]);
  }

  lemma {:induction false} SimRounds(x: Ctx, s: Foreach, k: nat, l: nat, base: seq<Value>, ref: nat, i: nat, visited: bool,
                                     n: nat, c: Vm, fuel: nat)
    returns (m: nat, d: Vm)
    requires ForeachAt(x, s, k, l) && Looping(x, s, l, base, ref, visited, c) && Here(x, n, c, HeadAt(s, k, l) + 3)
    requires ref in c.cursors && c.cursors[ref] == i <= |ItemsOf(x.w, ref)|
    ensures var r := Rounds(x.w, s, ItemsOf(x.w, ref), i, visited, c.vars, fuel);
            Ends(x, Left(c, ref, r.at), r.o, k + |ForeachBody(s, l)|, None, n, fuel, m, d)
    decreases fuel, |ItemsOf(x.w, ref)| - i, if visited then 0 else 2, 1
  {
    hide Reached, Sound, HasCode, Off, Addr, ForeachHead, ForeachTail, ForeachElseCode, ForeachBody, ForeachNeed, ForeachBlocks, EmitExpr, EmitStmt, Ends, ElseRound, Exec;
    var items, end := ItemsOf(x.w, ref), k + |ForeachBody(s, l)|;
    m, d := SimFetch(x, s, k, l, base, ref, i, visited, n, c);
    var n2, c2 := m, d;
    if i < |items| {
      m, d := SimRound(x, s, k, l, base, ref, i, n2, c2, fuel);
      var r := Rounds(x.w, s, items, i, visited, c.vars, fuel);
      CursorTwice(c, c2, ref, i + 1, r.at);
      EndsFrom(x, Left(c2.(stack := base + [List(ref)]), ref, r.at), Left(c, ref, r.at), r.o, end, None, n2, n, fuel, fuel, m, d);
    } else if s.els.Some? && !visited {
      assert Addr(x.p, L(ForeachPreElse, l)) == Off(x.p, ElseAt(s, k, l) + 1) by { ElseParts(x, s, k, l); }
      m, d := SimToElse(x, s, k, l, base, ref, i, n2, c2);
      var n3, c3 := m, d;
      m, d := SimElseRound(x, s, k, l, base, ref, i, n3, c3, fuel);
      var r := ElseRound(x.w, s, items, i, c.vars, fuel);
      EndsFrom(x, Left(c3, ref, r.at), Left(c, ref, r.at), r.o, end, None, n3, n, fuel, fuel, m, d);
    } else {
      m, d := SimOver(x, s, k, l, base, ref, i, n2, c2, fuel);
      EndsFrom(x, Left(c2.(stack := base + [List(ref)]), ref, i), Left(c, ref, i), Normal(c.vars), end, None, n2, n, fuel, fuel, m, d);
    }
  }

  /** One round, from the fetch that found element i. */
  lemma {:induction false} SimRound(x: Ctx, s: Foreach, k: nat, l: nat, base: seq<Value>, ref: nat, i: nat, n: nat, c: Vm, fuel: nat)
    returns (m: nat, d: Vm)
    requires ForeachAt(x, s, k, l) && Fetching(x, s, l, base, ref, i, true, c) && Here(x, n, c, StoresAt(s, k, l) - 2)
    requires i < |ItemsOf(x.w, ref)| && ref in c.cursors && c.cursors[ref] == i + 1
    ensures var r := Rounds(x.w, s, ItemsOf(x.w, ref), i, true, c.vars, fuel);
            Ends(x, Left(c.(stack := base + [List(ref)]), ref, r.at), r.o, k + |ForeachBody(s, l)|, None, n, fuel, m, d)
    decreases fuel, |ItemsOf(x.w, ref)| - i, 0, 0
  {
    hide Reached, Sound, HasCode, Off, Addr, ForeachHead, ForeachTail, ForeachElseCode, ForeachBody, ForeachNeed, ForeachBlocks, EmitExpr, EmitStmt,
      Ends, ElseRound, Exec, WellFormed, StackNeed, BlockNeed, Bound, BodyCode;
    var items, end := ItemsOf(x.w, ref), k + |ForeachBody(s, l)|;
    Parts(x, s, k, l);
    Places(x, s, k, l);
    TailLength(l, |s.names|);
    PartsNeed(s);
    var b, here := BodyCode(s, l), Some(L(ForeachLoop, l));
    var kb, at := BodyAt(s, k, l), i + 1;
    m, d := SimBind(x, s, k, l, base, ref, i, n, c);
    var n2, c2 := m, d;
    BodyIs(s, l);
    m, d := SimStmt(x, s.body, kb, l + ExprCount(s.subject), here, n2, c2, fuel);
    var o := Exec(x.w, s.body, c2.vars, fuel);
    if Again(o) {
      if o.Normal? {
        EndedNormally(x, c2, o, kb + |b|, here, n2, fuel, m, d);
        d := DoJump(x, m, d, kb + |b|, [Op(JumpAbsolute(L(ForeachLoop, l)))], 0, L(ForeachLoop, l));
      } else {
        d := Resumes(x, c2, o, kb + |b|, here, n2, fuel, m, d);
      }
      var n3, c3 := m + 1, d;
      m, d := SimRounds(x, s, k, l, base, ref, at, true, n3, c3, fuel);
      var r := Rounds(x.w, s, items, at, true, o.vars, fuel);
      EndsFrom(x, Left(c3, ref, r.at), Left(c.(stack := base + [List(ref)]), ref, r.at), r.o, end, None, n3, n, fuel, fuel, m, d);
    } else if o.BrokeElse? {
      if s.els.None? {
        d := Restarts(x, c2, o, kb + |b|, here, n2, fuel, m, d, end);
        m := m + 1;
        assert c2.cursors[ref := at] == c2.cursors;
        EndsFrom(x, c2.(blocks := c2.blocks[..|c2.blocks| - 1]), Left(c.(stack := base + [List(ref)]), ref, at), Restart(o.vars), end, None, n2, n, fuel, fuel, m, d);
        return;
      }
      d := Resumes(x, c2, o, kb + |b|, here, n2, fuel, m, d);
      var n3, c3 := m + 1, d;
      ElseParts(x, s, k, l);
      m, d := SimElseRound(x, s, k, l, base, ref, at, n3, c3, fuel);
      var r := ElseRound(x.w, s, items, at, o.vars, fuel);
      EndsFrom(x, Left(c3, ref, r.at), Left(c.(stack := base + [List(ref)]), ref, r.at), r.o, end, None, n3, n, fuel, fuel, m, d);
    } else {
      m, d := Escapes(x, c2, o, kb + |b|, here, n2, fuel, m, d, TailAt(s, k, l), ForeachTail(l, |s.names|), |s.names| + 3);
      assert c2.cursors[ref := at] == c2.cursors;
      EndsFrom(x, c2.(blocks := c2.blocks[..|c2.blocks| - 1]), Left(c.(stack := base + [List(ref)]), ref, at), Escape(o), end, None, n2, n, fuel, fuel, m, d);
    }
  }

  lemma BodyIs(s: Foreach, l: nat)
    ensures BodyCode(s, l) == EmitStmt(s.body, l + ExprCount(s.subject), Some(L(ForeachLoop, l)))
  {
  }

  lemma {:induction false} SimElseRound(x: Ctx, s: Foreach, k: nat, l: nat, base: seq<Value>, ref: nat, i: nat, n: nat, c: Vm, fuel: nat)
    returns (m: nat, d: Vm)
    requires ForeachAt(x, s, k, l) && s.els.Some? && Looping(x, s, l, base, ref, true, c)
    requires Here(x, n, c, ElseAt(s, k, l) + 3 + |s.names|)
    requires ref in c.cursors && c.cursors[ref] == i <= |ItemsOf(x.w, ref)|
    ensures var r := ElseRound(x.w, s, ItemsOf(x.w, ref), i, c.vars, fuel);
            Ends(x, Left(c, ref, r.at), r.o, k + |ForeachBody(s, l)|, None, n, fuel, m, d)
    decreases fuel, |ItemsOf(x.w, ref)| - i, 1, 0
  {
    hide Reached, Sound, HasCode, Off, Addr, ForeachHead, ForeachTail, ForeachElseCode, ForeachBody, ForeachNeed, ForeachBlocks, EmitExpr, EmitStmt,
      Ends, Rounds, Exec, WellFormed, StackNeed, BlockNeed;
    var items, end := ItemsOf(x.w, ref), k + |ForeachBody(s, l)|;
    Parts(x, s, k, l);
    Places(x, s, k, l);
    ElseParts(x, s, k, l);
    TailLength(l, |s.names|);
    PartsNeed(s);
    var e, cont := ElseBody(s, l).value, Kept(Some(L(ForeachLoop, l)), Drift(s.body));
    var ke, tail, f := ElseAt(s, k, l) + 3 + |s.names|, ForeachTail(l, |s.names|), |s.names|;
    m, d := SimStmt(x, s.els.value, ke, l + ExprCount(s.subject) + StmtCount(s.body), cont, n, c, fuel);
    var o := Exec(x.w, s.els.value, c.vars, fuel);
    assert c.cursors[ref := i] == c.cursors;
    if o.Normal? {
      EndedNormally(x, c, o, ke + |e|, cont, n, fuel, m, d);
      d := DoJump(x, m, d, ke + |e|, [Op(JumpAbsolute(L(ForeachEnd, l)))], 0, L(ForeachEnd, l));
      d := DoPopBlock(x, m + 1, d, TailAt(s, k, l), tail, f + 3);
      m := m + 2;
      EndsNormal(x, Left(c, ref, i), end, None, n, fuel, m, d);
    } else if o.Continued? || o.BrokeElse? {
      d := Resumes(x, c, o, ke + |e|, cont, n, fuel, m, d);
      m := m + 1;
      var n2, c2 := m, d;
      if o.Continued? {
        m, d := SimRounds(x, s, k, l, base, ref, i, true, n2, c2, fuel);
        var r := Rounds(x.w, s, items, i, true, o.vars, fuel);
        EndsFrom(x, Left(c2, ref, r.at), Left(c, ref, r.at), r.o, end, None, n2, n, fuel, fuel, m, d);
      } else if fuel == 0 {
        EndsTimeout(x, Left(c, ref, i), end, None, n, m, d);
      } else {
        m, d := SimElseRound(x, s, k, l, base, ref, i, n2, c2, fuel - 1);
        var r := ElseRound(x.w, s, items, i, o.vars, fuel - 1);
        EndsFrom(x, Left(c2, ref, r.at), Left(c, ref, r.at), r.o, end, None, n2, n, fuel - 1, fuel, m, d);
      }
    } else {
      m, d := Escapes(x, c, o, ke + |e|, cont, n, fuel, m, d, TailAt(s, k, l), tail, f + 3);
    }
  }

  function CursorAt(c: Vm, ref: nat, at: nat): Vm {
    c.(cursors := c.cursors[ref := at])
  }

  /** The loop over list ref, from its setup on. */
  lemma SimOverList(x: Ctx, s: Foreach, k: nat, l: nat, ref: nat, base: seq<Value>, n: nat, c: Vm, fuel: nat) returns (m: nat, d: Vm)
    requires ForeachAt(x, s, k, l) && Here(x, n, c, HeadAt(s, k, l) + 1)
    requires c.stack == base + [List(ref)] && ref in c.cursors && c.cursors[ref] == 0
    requires |base| + ForeachNeed(s) <= x.size && |c.blocks| + ForeachBlocks(s) <= BLOCK_MAX_DEPTH
    ensures var i := Rounds(x.w, s, ItemsOf(x.w, ref), 0, false, c.vars, fuel);
            Ends(x, CursorAt(c, ref, i.at), i.o, k + |ForeachBody(s, l)|, None, n, fuel, m, d)
  {
    hide Reached, Sound, HasCode, Off, Addr, ForeachHead, ForeachTail, ForeachElseCode, ForeachBody, ForeachNeed, EmitExpr, EmitStmt, Ends,
      Rounds, Stores, ElseBody, BodyCode, ExprNeed, StackNeed, BlockNeed;
    Parts(x, s, k, l);
    Places(x, s, k, l);
    HeadLines(l, |s.names|, s.els.Some?);
    NestedAt(x, n, c);
    PartsNeed(s);
    var h, k1 := ForeachHead(l, |s.names|, s.els.Some?), HeadAt(s, k, l);
    d := DoSetupLoop(x, n, c, k1, h, 1, h[1].i);
    var n2, c2 := n + 1, d;
    m, d := SimRounds(x, s, k, l, base, ref, 0, false, n2, c2, fuel);
    var i := Rounds(x.w, s, ItemsOf(x.w, ref), 0, false, c.vars, fuel);
    assert c2.blocks[..|c2.blocks| - 1] == c.blocks;
    EndsFrom(x, Left(c2, ref, i.at), CursorAt(c, ref, i.at), i.o, k + |ForeachBody(s, l)|, None, n2, n, fuel, fuel, m, d);
  }

  /** A foreach over a list: its subject yields list ref, the rounds are those of the reference semantics,
      and unlike every other statement it leaves one value behind, its iterator.  A subject that is no
      list raises an exception. */
  lemma SimForeach(x: Ctx, s: Foreach, k: nat, l: nat, n: nat, c: Vm, fuel: nat) returns (m: nat, d: Vm)
    requires ForeachAt(x, s, k, l) && Here(x, n, c, k)
    requires |c.stack| + ForeachNeed(s) <= x.size && |c.blocks| + ForeachBlocks(s) <= BLOCK_MAX_DEPTH
    ensures var r := Eval(x.w, s.subject, c.vars);
            var end := k + |ForeachBody(s, l)|;
            if !r.Ok? then Ends(x, c, Failure(c.vars, r), end, None, n, fuel, m, d)
            else if !r.v.List? then Ends(x, c, Threw(c.vars, x.w.notIterator), end, None, n, fuel, m, d)
            else
              var i := Rounds(x.w, s, ItemsOf(x.w, r.v.ref), 0, false, c.vars, fuel);
              Ends(x, c.(stack := c.stack + [r.v], cursors := c.cursors[r.v.ref := i.at]), i.o, end, None, n, fuel, m, d)
  {
    hide Reached, Sound, HasCode, Off, Addr, ForeachHead, ForeachTail, ForeachElseCode, ForeachBody, EmitExpr, EmitStmt, Eval, ExprNeed,
      Rounds, StackNeed, BlockNeed;
    var end := k + |ForeachBody(s, l)|;
    Parts(x, s, k, l);
    NestedAt(x, n, c);
    HeadLines(l, |s.names|, s.els.Some?);
    var h, k1 := ForeachHead(l, |s.names|, s.els.Some?), HeadAt(s, k, l);
    m, d := SimExpr(x, s.subject, k, l, n, c);
    var r := Eval(x.w, s.subject, c.vars);
    if !r.Ok? {
      EndsFailure(x, c, r, end, None, n, fuel, m, d, k1);
      return;
    }
    d := DoReset(x, m, d, k1, h, 0);
    m := m + 1;
    assert (c.stack + [r.v])[..|c.stack|] == c.stack;
    if r.v.List? {
      var ref := r.v.ref;
      var n2, c2 := m, d;
      m, d := SimOverList(x, s, k, l, ref, c.stack, n2, c2, fuel);
      var i := Rounds(x.w, s, ItemsOf(x.w, ref), 0, false, c.vars, fuel);
      CursorTwice(c, c2, ref, 0, i.at);
      EndsFrom(x, CursorAt(c2, ref, i.at), c.(stack := c.stack + [r.v], cursors := c.cursors[ref := i.at]), i.o, end, None, n2, n, fuel, fuel, m, d);
    }
  }
}
