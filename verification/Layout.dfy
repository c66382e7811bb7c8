/** Where the parts of a statement's code stand, and which offsets its labels stand for. */
module Layout {
  import opened Values
  import opened Syntax
  import opened Assembly
  import opened Emit
  import opened Assembler
  import opened Trace

  lemma IfParts(x: Ctx, k: nat, n: nat, cc: Snippet, ct: Snippet, ce: Snippet)
    requires Sound(x) && HasCode(x.p, k, IfCode(n, cc, ct, ce))
    ensures var fl, el, k1 := L(IfElse, n), L(IfEnd, n), k + |cc|;
            var k2, k3 := k1 + 2 + |ct|, k1 + 5 + |ct| + |ce|;
            && HasCode(x.p, k, cc) && HasCode(x.p, k1 + 2, ct) && HasCode(x.p, k2 + 3, ce)
            && HasCode(x.p, k1, [Op(JumpIfFalse(fl)), Op(PopTop)])
            && HasCode(x.p, k2, [Op(JumpAbsolute(el)), Lab(fl), Op(PopTop)])
            && HasCode(x.p, k3, [Op(JumpAbsolute(el)), Lab(el)])
            && |IfCode(n, cc, ct, ce)| == |cc| + |ct| + |ce| + 7
            && Addr(x.p, fl) == Off(x.p, k2 + 2) && Addr(x.p, el) == Off(x.p, k3 + 2)
  {
    hide HasCode, Sound, Off, Addr;
    var fl, el, k1 := L(IfElse, n), L(IfEnd, n), k + |cc|;
    var s1, s2, s3 := [Op(JumpIfFalse(fl)), Op(PopTop)], [Op(JumpAbsolute(el)), Lab(fl), Op(PopTop)], [Op(JumpAbsolute(el)), Lab(el)];
    Split6(x.p, k, cc, s1, ct, s2, ce, s3);
    LabelAt(x, k1 + 2 + |ct|, s2, 1);
    LabelAt(x, k1 + 5 + |ct| + |ce|, s3, 1);
  }

  lemma WhileParts(x: Ctx, k: nat, n: nat, cc: Snippet, cb: Snippet, ce: Option<Snippet>)
    requires Sound(x) && HasCode(x.p, k, WhileCode(n, cc, cb, ce))
    ensures var f, k1 := if ce.Some? then 1 else 0, k + 2 + |cc|;
            var k2 := k1 + f + 3 + |cb|;
            var k3 := k2 + |WhileElseCode(n, ce)|;
            && HasCode(x.p, k, [Op(if ce.Some? then SetupElseLoop(L(WhileEnd, n), L(WhileElse, n)) else SetupLoop(L(WhileEnd, n))),
                                Lab(L(WhileTop, n))])
            && HasCode(x.p, k + 2, cc)
            && HasCode(x.p, k1, if ce.Some? then [Op(JumpIfFirstFalse(L(WhilePreElse, n)))] else [])
            && HasCode(x.p, k1 + f, [Op(JumpIfFalse(L(WhilePreEnd, n))), Op(PopTop)])
            && HasCode(x.p, k1 + f + 2, cb)
            && HasCode(x.p, k2 - 1, [Op(JumpAbsolute(L(WhileTop, n)))])
            && HasCode(x.p, k2, WhileElseCode(n, ce))
            && HasCode(x.p, k3, [Lab(L(WhilePreEnd, n)), Op(PopTop), Lab(L(WhileEnd, n)), Op(PopBlock)])
            && k + |WhileCode(n, cc, cb, ce)| == k3 + 4
            && Addr(x.p, L(WhileTop, n)) == Off(x.p, k + 2)
            && Addr(x.p, L(WhilePreEnd, n)) == Off(x.p, k3 + 1)
            && Addr(x.p, L(WhileEnd, n)) == Off(x.p, k3 + 2) == Off(x.p, k3 + 3)
  {
    hide HasCode, Sound, Off, Addr, WhileElseCode;
    var f, k1 := if ce.Some? then 1 else 0, k + 2 + |cc|;
    var k2 := k1 + f + 3 + |cb|;
    var k3 := k2 + |WhileElseCode(n, ce)|;
    var s0 := [Op(if ce.Some? then SetupElseLoop(L(WhileEnd, n), L(WhileElse, n)) else SetupLoop(L(WhileEnd, n))),
               Lab(L(WhileTop, n))];
    var s1 := if ce.Some? then [Op(JumpIfFirstFalse(L(WhilePreElse, n)))] else [];
    var s2, s3 := [Op(JumpIfFalse(L(WhilePreEnd, n))), Op(PopTop)], [Op(JumpAbsolute(L(WhileTop, n)))];
    var s4 := [Lab(L(WhilePreEnd, n)), Op(PopTop), Lab(L(WhileEnd, n)), Op(PopBlock)];
    Split6(x.p, k, s0, cc, s1, s2 + cb + s3, WhileElseCode(n, ce), s4);
    Split3(x.p, k1 + f, s2, cb, s3);
    LabelAt(x, k, s0, 1);
    LabelAt(x, k3, s4, 0);
    LabelAt(x, k3, s4, 2);
  }

  lemma WhileElseParts(x: Ctx, k: nat, n: nat, ce: Snippet)
    requires Sound(x) && HasCode(x.p, k, WhileElseCode(n, Some(ce)))
    ensures HasCode(x.p, k, [Lab(L(WhilePreElse, n)), Op(PopTop), Lab(L(WhileElse, n))])
    ensures HasCode(x.p, k + 3, ce) && HasCode(x.p, k + 3 + |ce|, [Op(JumpAbsolute(L(WhileEnd, n)))])
    ensures |WhileElseCode(n, Some(ce))| == |ce| + 4
    ensures Addr(x.p, L(WhilePreElse, n)) == Off(x.p, k + 1)
    ensures Addr(x.p, L(WhileElse, n)) == Off(x.p, k + 2) == Off(x.p, k + 3)
  {
    hide HasCode, Sound, Off, Addr;
    var s0 := [Lab(L(WhilePreElse, n)), Op(PopTop), Lab(L(WhileElse, n))];
    Split3(x.p, k, s0, ce, [Op(JumpAbsolute(L(WhileEnd, n)))]);
    LabelAt(x, k, s0, 0);
    LabelAt(x, k, s0, 2);
  }

  lemma DoParts(x: Ctx, k: nat, n: nat, cb: Snippet, cc: Snippet)
    requires Sound(x) && HasCode(x.p, k, DoCode(n, cb, cc))
    ensures var k1, k2 := k + 3 + |cb|, k + 3 + |cb| + |cc|;
            && HasCode(x.p, k, [Op(SetupLoop(L(DoEnd, n))), Lab(L(DoTop, n))])
            && HasCode(x.p, k + 2, cb) && HasCode(x.p, k1, cc)
            && HasCode(x.p, k2, [Op(JumpIfFalse(L(DoPreEnd, n))), Op(PopTop), Op(JumpAbsolute(L(DoTop, n))),
                                 Lab(L(DoPreEnd, n)), Op(PopTop), Lab(L(DoEnd, n)), Op(PopBlock)])
            && |DoCode(n, cb, cc)| == |cb| + |cc| + 10
            && Addr(x.p, L(DoTop, n)) == Off(x.p, k + 2)
            && Addr(x.p, L(DoCmp, n)) == Off(x.p, k1 - 1) == Off(x.p, k1)
            && Addr(x.p, L(DoPreEnd, n)) == Off(x.p, k2 + 4)
            && Addr(x.p, L(DoEnd, n)) == Off(x.p, k2 + 5) == Off(x.p, k2 + 6)
  {
    hide HasCode, Sound, Off, Addr;
    var k2 := k + 3 + |cb| + |cc|;
    var s0, s1 := [Op(SetupLoop(L(DoEnd, n))), Lab(L(DoTop, n))], [Lab(L(DoCmp, n))];
    var s2 := [Op(JumpIfFalse(L(DoPreEnd, n))), Op(PopTop), Op(JumpAbsolute(L(DoTop, n))),
               Lab(L(DoPreEnd, n)), Op(PopTop), Lab(L(DoEnd, n)), Op(PopBlock)];
    Split5(x.p, k, s0, cb, s1, cc, s2);
    LabelAt(x, k, s0, 1);
    LabelAt(x, k + 2 + |cb|, s1, 0);
    LabelAt(x, k2, s2, 3);
    LabelAt(x, k2, s2, 5);
  }

  lemma ForParts(x: Ctx, k: nat, n: nat, ci: Snippet, cc: Snippet, cb: Snippet, cs: Snippet)
    requires Sound(x) && HasCode(x.p, k, ForCode(n, ci, cc, cb, cs))
    ensures var k1 := k + 3 + |ci|;
            var k2 := k1 + |cc|;
            var k3 := k2 + 2 + |cb|;
            var k4 := k3 + 1 + |cs|;
            && HasCode(x.p, k + 1, ci) && HasCode(x.p, k1 - 2, [Op(SetupLoop(L(ForEnd, n))), Lab(L(ForTest, n))])
            && HasCode(x.p, k1, cc) && HasCode(x.p, k2, [Op(JumpIfFalse(L(ForPreEnd, n))), Op(PopTop)])
            && HasCode(x.p, k2 + 2, cb) && HasCode(x.p, k3 + 1, cs)
            && HasCode(x.p, k4, [Op(JumpAbsolute(L(ForTest, n))), Lab(L(ForPreEnd, n)), Op(PopTop), Lab(L(ForEnd, n)), Op(PopBlock)])
            && k + |ForCode(n, ci, cc, cb, cs)| == k4 + 5
            && Off(x.p, k) == Off(x.p, k + 1)
            && Addr(x.p, L(ForTest, n)) == Off(x.p, k1)
            && Addr(x.p, L(ForIncdec, n)) == Off(x.p, k3) == Off(x.p, k3 + 1)
            && Addr(x.p, L(ForPreEnd, n)) == Off(x.p, k4 + 2)
            && Addr(x.p, L(ForEnd, n)) == Off(x.p, k4 + 3) == Off(x.p, k4 + 4)
  {
    hide HasCode, Sound, Off, Addr;
    var k1 := k + 3 + |ci|;
    var k3 := k1 + |cc| + 2 + |cb|;
    var s0, s1, s2 := [Lab(L(ForInit, n))], [Op(SetupLoop(L(ForEnd, n))), Lab(L(ForTest, n))], [Op(JumpIfFalse(L(ForPreEnd, n))), Op(PopTop)];
    var s3 := [Lab(L(ForIncdec, n))];
    var s4 := [Op(JumpAbsolute(L(ForTest, n))), Lab(L(ForPreEnd, n)), Op(PopTop), Lab(L(ForEnd, n)), Op(PopBlock)];
    Split7(x.p, k, s0 + ci + s1, cc, s2, cb, s3, cs, s4);
    Split3(x.p, k, s0, ci, s1);
    LabelAt(x, k, s0, 0);
    LabelAt(x, k1 - 2, s1, 1);
    LabelAt(x, k3, s3, 0);
    LabelAt(x, k3 + 1 + |cs|, s4, 1);
    LabelAt(x, k3 + 1 + |cs|, s4, 3);
  }

  lemma TryParts(x: Ctx, k: nat, n: nat, cb: Snippet, ch: Snippet, cf: Snippet)
    requires Sound(x) && HasCode(x.p, k, TryCode(n, cb, ch, cf))
    ensures var k1 := k + 1 + |cb|;
            var k2 := k1 + 2 + |ch|;
            var k3 := k2 + 3 + |cf|;
            && HasCode(x.p, k, [Op(SetupExcept(L(TryCatch, n), L(TryFinally, n), L(TryEndFinally, n)))])
            && HasCode(x.p, k + 1, cb)
            && HasCode(x.p, k1, [Op(JumpForward(L(TryFinally, n))), Lab(L(TryCatch, n))])
            && HasCode(x.p, k1 + 2, ch)
            && HasCode(x.p, k2, [Op(PopTop), Op(JumpForward(L(TryFinally, n))), Lab(L(TryFinally, n))])
            && HasCode(x.p, k2 + 3, cf)
            && HasCode(x.p, k3, [Lab(L(TryEndFinally, n)), Op(EndFinally)])
            && k + |TryCode(n, cb, ch, cf)| == k3 + 2
            && Addr(x.p, L(TryCatch, n)) == Off(x.p, k1 + 2)
            && Addr(x.p, L(TryFinally, n)) == Off(x.p, k2 + 2) == Off(x.p, k2 + 3)
            && Addr(x.p, L(TryEndFinally, n)) == Off(x.p, k3) == Off(x.p, k3 + 1)
  {
    hide HasCode, Sound, Off, Addr;
    var k1 := k + 1 + |cb|;
    var k2 := k1 + 2 + |ch|;
    var s0, s1 := [Op(SetupExcept(L(TryCatch, n), L(TryFinally, n), L(TryEndFinally, n)))], [Op(JumpForward(L(TryFinally, n))), Lab(L(TryCatch, n))];
    var s2, s3 := [Op(PopTop), Op(JumpForward(L(TryFinally, n))), Lab(L(TryFinally, n))], [Lab(L(TryEndFinally, n)), Op(EndFinally)];
    Split7(x.p, k, s0, cb, s1, ch, s2, cf, s3);
    LabelAt(x, k1, s1, 1);
    LabelAt(x, k2, s2, 2);
    LabelAt(x, k2 + 3 + |cf|, s3, 0);
  }

  lemma CatchParts(x: Ctx, k: nat, n: nat, i: nat, classId: Id, id: Id, cb: Snippet)
    requires Sound(x) && HasCode(x.p, k, CatchCode(n, i, classId, id, cb))
    ensures var k1 := k + (if i != 0 then 1 else 0);
            && HasCode(x.p, k, if i != 0 then [Op(PopTop)] else [])
            && HasCode(x.p, k1, [Op(DupTop), Op(LoadId(classId)), Op(CompareEx), Op(JumpIfFalse(Label(TryNoMatch, n, i))), Op(PopTop),
                                 Op(StoreId(id)), Lab(Label(TryMatch, n, i))])
            && HasCode(x.p, k1 + 7, cb)
            && HasCode(x.p, k1 + 7 + |cb|, [Op(JumpForward(L(TryFinally, n))), Lab(Label(TryNoMatch, n, i))])
            && k + |CatchCode(n, i, classId, id, cb)| == k1 + 9 + |cb|
            && Off(x.p, k1 + 6) == Off(x.p, k1 + 7)
            && Addr(x.p, Label(TryNoMatch, n, i)) == Off(x.p, k1 + 9 + |cb|)
  {
    hide HasCode, Sound, Off, Addr;
    var k1 := k + (if i != 0 then 1 else 0);
    var s0 := if i != 0 then [Op(PopTop)] else [];
    var s1 := [Op(DupTop), Op(LoadId(classId)), Op(CompareEx), Op(JumpIfFalse(Label(TryNoMatch, n, i))), Op(PopTop),
               Op(StoreId(id)), Lab(Label(TryMatch, n, i))];
    var s2 := [Op(JumpForward(L(TryFinally, n))), Lab(Label(TryNoMatch, n, i))];
    Split4(x.p, k, s0, s1, cb, s2);
    LabelAt(x, k1, s1, 6);
    LabelAt(x, k1 + 7 + |cb|, s2, 1);
  }

  lemma SwitchParts(x: Ctx, k: nat, n: nat, ce: Snippet, cc: Snippet, count: nat, defaults: nat)
    requires Sound(x) && HasCode(x.p, k, SwitchCode(n, ce, cc, count, defaults))
    ensures var f, k1 := if defaults == 0 then 1 else 0, k + |ce|;
            var k2 := k1 + 2 + |cc|;
            && HasCode(x.p, k, ce)
            && HasCode(x.p, k1, [Lab(L(SwitchBegin, n)), Op(SetupElseLoop(L(SwitchEnd, n), L(SwitchDefault, n)))])
            && HasCode(x.p, k1 + 2, cc)
            && HasCode(x.p, k2, [Lab(Label(CasePre, n, count)), Op(PopTop), Op(JumpAbsolute(L(SwitchDefault, n))),
                                 Lab(Label(CaseTest, n, count)), Lab(Label(CaseBody, n, count))])
            && HasCode(x.p, k2 + 5 + f, [Lab(L(SwitchEnd, n)), Op(PopBlock), Op(PopTop)])
            && k + |SwitchCode(n, ce, cc, count, defaults)| == k2 + 8 + f
            && Off(x.p, k1) == Off(x.p, k1 + 1)
            && Addr(x.p, Label(CasePre, n, count)) == Off(x.p, k2 + 1)
            && Addr(x.p, Label(CaseBody, n, count)) == Off(x.p, k2 + 6 + f)
            && (defaults == 0 ==> Addr(x.p, L(SwitchDefault, n)) == Off(x.p, k2 + 6 + f))
            && Addr(x.p, L(SwitchEnd, n)) == Off(x.p, k2 + 6 + f)
  {
    hide HasCode, Sound, Off, Addr;
    var f, k1 := if defaults == 0 then 1 else 0, k + |ce|;
    var k2 := k1 + 2 + |cc|;
    var s0 := [Lab(L(SwitchBegin, n)), Op(SetupElseLoop(L(SwitchEnd, n), L(SwitchDefault, n)))];
    var s1 := [Lab(Label(CasePre, n, count)), Op(PopTop), Op(JumpAbsolute(L(SwitchDefault, n))),
               Lab(Label(CaseTest, n, count)), Lab(Label(CaseBody, n, count))];
    var s2 := if defaults == 0 then [Lab(L(SwitchDefault, n))] else [];
    var s3 := [Lab(L(SwitchEnd, n)), Op(PopBlock), Op(PopTop)];
    Split6(x.p, k, ce, s0, cc, s1, s2, s3);
    LabelAt(x, k1, s0, 0);
    LabelAt(x, k2, s1, 0);
    LabelAt(x, k2, s1, 4);
    LabelAt(x, k2 + 5 + f, s3, 0);
    if defaults == 0 { LabelAt(x, k2 + 5, s2, 0); }
  }

  // ----- the cases of a switch -----

  /** The label counter before case i, and where its code begins, if the cases begin at k with counter n. */
  function CaseNum(cases: seq<Case>, n: nat, i: nat): nat
    requires i <= |cases|
  {
    if i == 0 then n else CaseNum(cases, n, i - 1) + CaseCount(cases[i - 1])
  }

  function CasePos(cases: seq<Case>, own: nat, n: nat, k: nat, i: nat): nat
    requires i <= |cases|
  {
    if i == 0 then k
    else CasePos(cases, own, n, k, i - 1) + |EmitCase(cases[i - 1], i - 1, own, CaseNum(cases, n, i - 1))|
  }

  lemma {:induction false} CasesFrom(p: seq<Line>, k: nat, cases: seq<Case>, own: nat, n: nat, i: nat)
    requires HasCode(p, k, EmitCases(cases, 0, own, n)) && i <= |cases|
    ensures var rest := EmitCases(cases[i..], i, own, CaseNum(cases, n, i));
            && HasCode(p, CasePos(cases, own, n, k, i), rest)
            && CasePos(cases, own, n, k, i) + |rest| == k + |EmitCases(cases, 0, own, n)|
  {
    hide HasCode, EmitCase, CaseCount;
    if i == 0 {
      assert cases[0..] == cases;
    } else {
      CasesFrom(p, k, cases, own, n, i - 1);
      assert cases[i - 1..][1..] == cases[i..];
      var num := CaseNum(cases, n, i - 1);
      Split(p, CasePos(cases, own, n, k, i - 1), EmitCase(cases[i - 1], i - 1, own, num),
            EmitCases(cases[i..], i, own, num + CaseCount(cases[i - 1])));
    }
  }

  /** Case i stands at its position; the cases end where the position of the first missing case is. */
  lemma CaseAtPos(p: seq<Line>, k: nat, cases: seq<Case>, own: nat, n: nat, i: nat)
    requires HasCode(p, k, EmitCases(cases, 0, own, n)) && i <= |cases|
    ensures i == |cases| ==> CasePos(cases, own, n, k, i) == k + |EmitCases(cases, 0, own, n)|
    ensures i < |cases| ==> HasCode(p, CasePos(cases, own, n, k, i), EmitCase(cases[i], i, own, CaseNum(cases, n, i)))
  {
    hide HasCode, EmitCase;
    CasesFrom(p, k, cases, own, n, i);
    if i < |cases| {
      var num := CaseNum(cases, n, i);
      assert cases[i..][0] == cases[i];
      Split(p, CasePos(cases, own, n, k, i), EmitCase(cases[i], i, own, num),
            EmitCases(cases[i..][1..], i + 1, own, num + CaseCount(cases[i])));
    }
  }

  lemma CaseParts(x: Ctx, k: nat, n: nat, i: nat, test: Option<Snippet>, cb: Snippet)
    requires Sound(x) && HasCode(x.p, k, CaseCode(n, i, test, cb))
    ensures var k1 := k + |CaseEntry(n, i, test.Some?)|;
            var k2 := k1 + |CaseTestCode(n, i, test)|;
            && HasCode(x.p, k, CaseEntry(n, i, test.Some?))
            && HasCode(x.p, k1, CaseTestCode(n, i, test))
            && HasCode(x.p, k2 + 1, cb)
            && HasCode(x.p, k2 + 1 + |cb|, [Op(JumpAbsolute(Label(CaseBody, n, i + 1)))])
            && |CaseCode(n, i, test, cb)| == k2 - k + 2 + |cb|
            && Off(x.p, k) == Off(x.p, k + 1) == Addr(x.p, Label(CasePre, n, i))
            && Off(x.p, k1 - 1) == Off(x.p, k1)
            && Addr(x.p, Label(CaseBody, n, i)) == Off(x.p, k2) == Off(x.p, k2 + 1)
            && (test.None? ==> Addr(x.p, L(SwitchDefault, n)) == Off(x.p, k2))
  {
    hide HasCode, Sound, Off, Addr;
    var entry, tc := CaseEntry(n, i, test.Some?), CaseTestCode(n, i, test);
    var k1 := k + |entry|;
    var k2 := k1 + |tc|;
    Split5(x.p, k, entry, tc, [Lab(Label(CaseBody, n, i))], cb, [Op(JumpAbsolute(Label(CaseBody, n, i + 1)))]);
    LabelAt(x, k, entry, 0);
    LabelAt(x, k, entry, |entry| - 1);
    LabelAt(x, k2, [Lab(Label(CaseBody, n, i))], 0);
    if test.None? { LabelAt(x, k1, tc, 0); }
  }
}
