/** The places of the lines of statements and of whole frames. */
module StmtDepths {
  import opened Values
  import opened Syntax
  import opened Assembly
  import opened Emit
  import opened Machine
  import opened Depths
  import opened DepthTyping

  /** A statement may stand here: nothing of the code around it lies on the stack above its region, and
      the finally parts it stands in have begun. */
  predicate Seat(env: Env, done: set<Label>, a: Place) {
    && Sane(env, a.regions) && a.depth == BaseOf(a)
    && forall r | r in a.regions :: r.InTry? ==> !r.phase.Matching? && (r.phase.Finishing? ==> r.onFinally in done)
  }

  /** Where `continue` goes, and whether `breakelse` may stand here, in the innermost loop. */
  predicate Jumps(env: Env, a: Place, cont: Option<Label>, here: bool) {
    a.regions != [] && a.regions[|a.regions| - 1].InLoop? ==>
      && (cont.Some? ==> PlaceAt(env, cont.value) == a)
      && (here ==> a.regions[|a.regions| - 1].orElse.Some?)
  }

  lemma SeatFits(env: Env, done: set<Label>, a: Place)
    requires Seat(env, done, a)
    ensures Fit(env, a)
  {
  }

  /** One more region. */
  lemma SaneMore(env: Env, a: Place, r: Region)
    requires Sane(env, a.regions) && BaseOf(a) <= r.depth
    requires r.InLoop? ==> PlaceAt(env, r.end) == Inside(a, r) && (r.orElse.Some? ==> PlaceAt(env, r.orElse.value) == Inside(a, r))
    requires r.InTry? ==> PlaceAt(env, r.onCatch) == Inside(a, r.(phase := Matching)) && PlaceAt(env, r.onFinally) == Inside(a, r.(phase := Finishing))
    ensures Sane(env, Inside(a, r).regions)
  {
    hide PlaceAt;
    var rs := Inside(a, r).regions;
    forall j | 0 <= j < |rs| ensures SaneAt(env, rs, j) {
      assert rs[..j] == a.regions[..j];
      if j < |a.regions| { assert SaneAt(env, a.regions, j); } else { assert rs[..j] == a.regions; }
    }
  }

  lemma SeatMore(env: Env, done: set<Label>, a: Place, r: Region)
    requires Seat(env, done, a) && Sane(env, Inside(a, r).regions) && (r.InTry? ==> !r.phase.Matching? && (r.phase.Finishing? ==> r.onFinally in done))
    ensures Seat(env, done, Inside(a, r))
  {
    hide Sane;
  }

  lemma DoneMore(env: Env, done: set<Label>, l: Label, a: Place)
    requires Seat(env, done, a)
    ensures Seat(env, done + {l}, a)
  {
    hide Sane;
  }

  // ----- code shapes -----

  lemma Setup(env: Env, done: set<Label>, x: Line, y: Line, a: Place, r: Region)
    requires Fit(env, a) && Sane(env, Inside(a, r).regions) && r.InLoop? && r.depth == a.depth
    requires x == Op(if r.orElse.Some? then SetupElseLoop(r.end, r.orElse.value) else SetupLoop(r.end))
    requires y.Lab? && PlaceAt(env, y.l) == Inside(a, r)
    ensures Typed(env, done, [x, y], Some(a), Some(Inside(a, r)))
  {
    hide Typed, Sane, PlaceAt;
    Two(env, done, x, y, Some(a));
  }

  /** The end of a loop: the failed test, then the breaks. */
  lemma Closing(env: Env, done: set<Label>, pre: Label, end: Label, a: Place, r: Region)
    requires Fit(env, a) && Sane(env, Inside(a, r).regions) && r.InLoop? && r.depth == a.depth
    requires PlaceAt(env, pre) == Up(Inside(a, r), 1) && PlaceAt(env, end) == Inside(a, r)
    ensures Typed(env, done, [Lab(pre), Op(PopTop), Lab(end), Op(PopBlock)], None, Some(a))
  {
    hide Typed, Sane, PlaceAt;
    var b := Inside(a, r);
    assert Down(Up(b, 1), 1) == b && Outside(b, b.depth) == a;
    Two(env, done, Lab(end), Op(PopBlock), Some(b));
    Two(env, done, Lab(pre), Op(PopTop), None);
    Then(env, done, [Lab(pre), Op(PopTop)], [Lab(end), Op(PopBlock)], None, Some(b), Some(a));
    assert [Lab(pre), Op(PopTop)] + [Lab(end), Op(PopBlock)] == [Lab(pre), Op(PopTop), Lab(end), Op(PopBlock)];
  }

  /** The places of the labels of a while loop. */
  predicate WhilePlaces(env: Env, n: nat, withElse: bool, a: Place) {
    var b := InWhile(a, n, withElse);
    && PlaceAt(env, L(WhileTop, n)) == b && PlaceAt(env, L(WhileEnd, n)) == b && PlaceAt(env, L(WhileElse, n)) == b
    && PlaceAt(env, L(WhilePreEnd, n)) == Up(b, 1) && PlaceAt(env, L(WhilePreElse, n)) == Up(b, 1)
  }

  lemma WhileTyped(env: Env, done: set<Label>, n: nat, cc: Snippet, cb: Snippet, ce: Option<Snippet>, a: Place)
    requires Fit(env, a) && WhilePlaces(env, n, ce.Some?, a)
    requires var b := InWhile(a, n, ce.Some?);
             && Sane(env, b.regions) && Typed(env, done, cc, Some(b), Some(Up(b, 1))) && Typed(env, done, cb, Some(b), Some(b))
             && (ce.Some? ==> Typed(env, done, ce.value, Some(b), Some(b)))
    ensures Typed(env, done, WhileCode(n, cc, cb, ce), Some(a), Some(a))
  {
    hide Typed, Sane, PlaceAt, WhileElseCode;
    var b := InWhile(a, n, ce.Some?);
    var r := LoopRegion(WhileEnd, if ce.Some? then Some(WhileElse) else None, n, a.depth);
    var u, v := Some(b), Some(Up(b, 1));
    assert Down(Up(b, 1), 1) == b;
    var s0 := [Op(if ce.Some? then SetupElseLoop(L(WhileEnd, n), L(WhileElse, n)) else SetupLoop(L(WhileEnd, n))), Lab(L(WhileTop, n))];
    Setup(env, done, s0[0], s0[1], a, r);
    var s1 := if ce.Some? then [Op(JumpIfFirstFalse(L(WhilePreElse, n)))] else [];
    Empty(env, done, v);
    if ce.Some? { One(env, done, s1[0], v); }
    var s2, s3 := [Op(JumpIfFalse(L(WhilePreEnd, n))), Op(PopTop)], [Op(JumpAbsolute(L(WhileTop, n)))];
    Two(env, done, s2[0], s2[1], v);
    One(env, done, s3[0], u);
    Then3(env, done, s2, cb, s3, v, u, u, None);
    WhileElseTyped(env, done, n, ce, a);
    Closing(env, done, L(WhilePreEnd, n), L(WhileEnd, n), a, r);
    Then5(env, done, s0, cc, s1, s2 + cb + s3, WhileElseCode(n, ce), Some(a), u, v, v, None, None);
    Then(env, done, s0 + cc + s1 + (s2 + cb + s3) + WhileElseCode(n, ce),
         [Lab(L(WhilePreEnd, n)), Op(PopTop), Lab(L(WhileEnd, n)), Op(PopBlock)], Some(a), None, Some(a));
  }

  lemma WhileElseTyped(env: Env, done: set<Label>, n: nat, ce: Option<Snippet>, a: Place)
    requires WhilePlaces(env, n, ce.Some?, a) && Sane(env, InWhile(a, n, ce.Some?).regions)
    requires ce.Some? ==> var b := InWhile(a, n, true); Typed(env, done, ce.value, Some(b), Some(b))
    ensures Typed(env, done, WhileElseCode(n, ce), None, None)
  {
    hide Typed, Sane, PlaceAt;
    Empty(env, done, None);
    if ce.Some? {
      var b := InWhile(a, n, true);
      assert Down(Up(b, 1), 1) == b;
      var s0, s1 := [Lab(L(WhilePreElse, n)), Op(PopTop), Lab(L(WhileElse, n))], [Op(JumpAbsolute(L(WhileEnd, n)))];
      Three(env, done, s0[0], s0[1], s0[2], None);
      One(env, done, s1[0], Some(b));
      Then3(env, done, s0, ce.value, s1, None, Some(b), Some(b), None);
    }
  }

  lemma DoTyped(env: Env, done: set<Label>, n: nat, cb: Snippet, cc: Snippet, a: Place)
    requires var b := InDo(a, n);
             && Fit(env, a) && Sane(env, b.regions) && Typed(env, done, cb, Some(b), Some(b)) && Typed(env, done, cc, Some(b), Some(Up(b, 1)))
             && PlaceAt(env, L(DoTop, n)) == b && PlaceAt(env, L(DoCmp, n)) == b && PlaceAt(env, L(DoEnd, n)) == b
             && PlaceAt(env, L(DoPreEnd, n)) == Up(b, 1)
    ensures Typed(env, done, DoCode(n, cb, cc), Some(a), Some(a))
  {
    hide Typed, Sane, PlaceAt;
    var b, r := InDo(a, n), LoopRegion(DoEnd, None, n, a.depth);
    assert Down(Up(b, 1), 1) == b;
    var s0, s1 := [Op(SetupLoop(L(DoEnd, n))), Lab(L(DoTop, n))], [Lab(L(DoCmp, n))];
    Setup(env, done, s0[0], s0[1], a, r);
    One(env, done, s1[0], Some(b));
    var t0 := [Op(JumpIfFalse(L(DoPreEnd, n))), Op(PopTop), Op(JumpAbsolute(L(DoTop, n)))];
    var t1 := [Lab(L(DoPreEnd, n)), Op(PopTop), Lab(L(DoEnd, n)), Op(PopBlock)];
    Three(env, done, t0[0], t0[1], t0[2], Some(Up(b, 1)));
    Closing(env, done, L(DoPreEnd, n), L(DoEnd, n), a, r);
    Then(env, done, t0, t1, Some(Up(b, 1)), None, Some(a));
    Then5(env, done, s0, cb, s1, cc, t0 + t1, Some(a), Some(b), Some(b), Some(b), Some(Up(b, 1)), Some(a));
    assert t0 + t1 == [Op(JumpIfFalse(L(DoPreEnd, n))), Op(PopTop), Op(JumpAbsolute(L(DoTop, n))),
                       Lab(L(DoPreEnd, n)), Op(PopTop), Lab(L(DoEnd, n)), Op(PopBlock)];
  }

  /** The places of the labels of a for loop. */
  predicate ForPlaces(env: Env, n: nat, a: Place) {
    var b := InFor(a, n);
    && PlaceAt(env, L(ForInit, n)) == a && PlaceAt(env, L(ForTest, n)) == b && PlaceAt(env, L(ForIncdec, n)) == b
    && PlaceAt(env, L(ForEnd, n)) == b && PlaceAt(env, L(ForPreEnd, n)) == Up(b, 1)
  }

  lemma ForTyped(env: Env, done: set<Label>, n: nat, ci: Snippet, cc: Snippet, cb: Snippet, cs: Snippet, a: Place)
    requires var b := InFor(a, n);
             && Fit(env, a) && Sane(env, b.regions) && Typed(env, done, ci, Some(a), Some(a)) && Typed(env, done, cc, Some(b), Some(Up(b, 1)))
             && Typed(env, done, cb, Some(b), Some(b)) && Typed(env, done, cs, Some(b), Some(b)) && ForPlaces(env, n, a)
    ensures Typed(env, done, ForCode(n, ci, cc, cb, cs), Some(a), Some(a))
  {
    hide Typed, Sane, PlaceAt;
    var b, r := InFor(a, n), LoopRegion(ForEnd, None, n, a.depth);
    var t, u, v := Some(a), Some(b), Some(Up(b, 1));
    assert Down(Up(b, 1), 1) == b;
    var s0, s1, s2, s3 := [Lab(L(ForInit, n))], [Op(SetupLoop(L(ForEnd, n))), Lab(L(ForTest, n))],
                          [Op(JumpIfFalse(L(ForPreEnd, n))), Op(PopTop)], [Lab(L(ForIncdec, n))];
    One(env, done, s0[0], t);
    Setup(env, done, s1[0], s1[1], a, r);
    Then3(env, done, s0, ci, s1, t, t, t, u);
    Two(env, done, s2[0], s2[1], v);
    One(env, done, s3[0], u);
    var t0, t1 := [Op(JumpAbsolute(L(ForTest, n)))], [Lab(L(ForPreEnd, n)), Op(PopTop), Lab(L(ForEnd, n)), Op(PopBlock)];
    One(env, done, t0[0], u);
    Closing(env, done, L(ForPreEnd, n), L(ForEnd, n), a, r);
    Then(env, done, t0, t1, u, None, t);
    Then5(env, done, s0 + ci + s1, cc, s2, cb, s3, t, u, v, u, u, u);
    Then3(env, done, s0 + ci + s1 + cc + s2 + cb + s3, cs, t0 + t1, t, u, u, t);
    assert t0 + t1 == [Op(JumpAbsolute(L(ForTest, n))), Lab(L(ForPreEnd, n)), Op(PopTop), Lab(L(ForEnd, n)), Op(PopBlock)];
  }

  // ----- switch -----

  ghost predicate SwitchPlaces(env: Env, n: nat, a: Place) {
    var b := InSwitch(a, n);
    && PlaceAt(env, L(SwitchBegin, n)) == Up(a, 1) && PlaceAt(env, L(SwitchDefault, n)) == b && PlaceAt(env, L(SwitchEnd, n)) == b
    && (forall i: nat :: PlaceAt(env, Label(CasePre, n, i)) == Up(b, if i == 0 then 0 else 1))
    && (forall i: nat :: PlaceAt(env, Label(CaseTest, n, i)) == b)
    && (forall i: nat :: PlaceAt(env, Label(CaseBody, n, i)) == b)
  }

  /** Only the first case is entered from above. */
  function Reaches(i: nat, b: Place): Option<Place> {
    if i == 0 then Some(b) else None
  }

  lemma EntryTyped(env: Env, done: set<Label>, n: nat, i: nat, tested: bool, a: Place)
    requires Fit(env, a) && SwitchPlaces(env, n, a) && Sane(env, InSwitch(a, n).regions)
    ensures Typed(env, done, CaseEntry(n, i, tested), Reaches(i, InSwitch(a, n)), Some(InSwitch(a, n)))
  {
    hide Typed, Sane, PlaceAt;
    var b := InSwitch(a, n);
    var t, v := Reaches(i, b), Some(Up(b, if i == 0 then 0 else 1));
    assert Up(b, 0) == b && Down(Up(b, 1), 1) == b;
    var pre, test := Lab(Label(CasePre, n, i)), Lab(Label(CaseTest, n, i));
    One(env, done, pre, t);
    if tested {
      var pop := if i > 0 then [Op(PopTop)] else [];
      Empty(env, done, Some(b));
      if i > 0 { One(env, done, pop[0], v); }
      One(env, done, test, Some(b));
      Then3(env, done, [pre], pop, [test], t, v, Some(b), Some(b));
    } else {
      var dup := if i == 0 then [Op(DupTop)] else [];
      Empty(env, done, v);
      if i == 0 { One(env, done, dup[0], v); }
      assert PlaceAt(env, Label(CasePre, n, i + 1)) == Up(b, 1);
      Two(env, done, Op(JumpAbsolute(Label(CasePre, n, i + 1))), test, Some(Up(b, 1)));
      Then3(env, done, [pre], dup, [Op(JumpAbsolute(Label(CasePre, n, i + 1))), test], t, v, Some(Up(b, 1)), Some(b));
    }
  }

  lemma CaseTyped(env: Env, done: set<Label>, n: nat, i: nat, test: Option<Snippet>, cb: Snippet, a: Place)
    requires Fit(env, a) && SwitchPlaces(env, n, a) && Sane(env, InSwitch(a, n).regions)
    requires var b := InSwitch(a, n);
             Typed(env, done, cb, Some(b), Some(b)) && (test.Some? ==> Typed(env, done, test.value, Some(Up(b, 1)), Some(Up(b, 2))))
    ensures Typed(env, done, CaseCode(n, i, test, cb), Reaches(i, InSwitch(a, n)), None)
  {
    hide Typed, Sane, PlaceAt, CaseEntry;
    var b := InSwitch(a, n);
    var u := Some(b);
    assert Up(b, 0) == b && Down(Up(b, 1), 1) == b && Up(Up(b, 1), 1) == Up(b, 2);
    EntryTyped(env, done, n, i, test.Some?, a);
    var body, next := Lab(Label(CaseBody, n, i)), Op(JumpAbsolute(Label(CaseBody, n, i + 1)));
    One(env, done, body, u);
    One(env, done, next, u);
    var middle := [Lab(L(SwitchDefault, n))];
    if test.Some? {
      TestTyped(env, done, n, i, test.value, a);
      middle := [Op(DupTop)] + test.value + [Op(Compare(Eq)), Op(JumpIfFalse(Label(CasePre, n, i + 1))), Op(PopTop)];
    } else {
      One(env, done, middle[0], u);
    }
    Then5(env, done, CaseEntry(n, i, test.Some?), middle, [body], cb, [next], Reaches(i, b), u, u, u, u, None);
  }

  lemma TestTyped(env: Env, done: set<Label>, n: nat, i: nat, test: Snippet, a: Place)
    requires Fit(env, a) && SwitchPlaces(env, n, a) && Sane(env, InSwitch(a, n).regions)
    requires var b := InSwitch(a, n); Typed(env, done, test, Some(Up(b, 1)), Some(Up(b, 2)))
    ensures var b := InSwitch(a, n);
            Typed(env, done, [Op(DupTop)] + test + [Op(Compare(Eq)), Op(JumpIfFalse(Label(CasePre, n, i + 1))), Op(PopTop)], Some(b), Some(b))
  {
    hide Typed, Sane, PlaceAt;
    var b := InSwitch(a, n);
    assert Down(Up(b, 1), 1) == b && Up(Up(b, 1), 1) == Up(b, 2) && Down(Up(b, 2), 1) == Up(b, 1);
    assert PlaceAt(env, Label(CasePre, n, i + 1)) == Up(b, 1);
    var rest := [Op(Compare(Eq)), Op(JumpIfFalse(Label(CasePre, n, i + 1))), Op(PopTop)];
    One(env, done, Op(DupTop), Some(b));
    Three(env, done, rest[0], rest[1], rest[2], Some(Up(b, 2)));
    Then3(env, done, [Op(DupTop)], test, rest, Some(b), Some(Up(b, 1)), Some(Up(b, 2)), Some(b));
  }

  /** The lines behind the last case: nothing was equal. */
  lemma LastCase(env: Env, done: set<Label>, n: nat, count: nat, a: Place)
    requires Fit(env, a) && SwitchPlaces(env, n, a) && Sane(env, InSwitch(a, n).regions) && count > 0
    ensures Typed(env, done, [Lab(Label(CasePre, n, count)), Op(PopTop), Op(JumpAbsolute(L(SwitchDefault, n))),
                              Lab(Label(CaseTest, n, count)), Lab(Label(CaseBody, n, count))], None, Some(InSwitch(a, n)))
  {
    hide Typed, Sane, PlaceAt;
    var b := InSwitch(a, n);
    assert Down(Up(b, 1), 1) == b && PlaceAt(env, Label(CasePre, n, count)) == Up(b, 1);
    var s1, s2 := [Lab(Label(CasePre, n, count)), Op(PopTop), Op(JumpAbsolute(L(SwitchDefault, n)))],
                  [Lab(Label(CaseTest, n, count)), Lab(Label(CaseBody, n, count))];
    Three(env, done, s1[0], s1[1], s1[2], None);
    Two(env, done, s2[0], s2[1], None);
    Then(env, done, s1, s2, None, None, Some(b));
    assert s1 + s2 == [Lab(Label(CasePre, n, count)), Op(PopTop), Op(JumpAbsolute(L(SwitchDefault, n))),
                       Lab(Label(CaseTest, n, count)), Lab(Label(CaseBody, n, count))];
  }

  lemma SwitchTyped(env: Env, done: set<Label>, n: nat, ce: Snippet, cc: Snippet, count: nat, defaults: nat, a: Place)
    requires Fit(env, a) && SwitchPlaces(env, n, a) && Sane(env, InSwitch(a, n).regions) && count > 0
    requires Typed(env, done, ce, Some(a), Some(Up(a, 1))) && Typed(env, done, cc, Some(InSwitch(a, n)), None)
    ensures Typed(env, done, SwitchCode(n, ce, cc, count, defaults), Some(a), Some(a))
  {
    hide Typed, Sane, PlaceAt;
    var b := InSwitch(a, n);
    var t, u := Some(a), Some(b);
    assert Down(Up(b, 1), 1) == b && Outside(b, b.depth) == Up(a, 1) && Down(Up(a, 1), 1) == a;
    var s0 := [Lab(L(SwitchBegin, n)), Op(SetupElseLoop(L(SwitchEnd, n), L(SwitchDefault, n)))];
    Two(env, done, s0[0], s0[1], Some(Up(a, 1)));
    LastCase(env, done, n, count, a);
    var s1 := [Lab(Label(CasePre, n, count)), Op(PopTop), Op(JumpAbsolute(L(SwitchDefault, n))),
               Lab(Label(CaseTest, n, count)), Lab(Label(CaseBody, n, count))];
    var s3 := if defaults == 0 then [Lab(L(SwitchDefault, n))] else [];
    Empty(env, done, u);
    if defaults == 0 { One(env, done, s3[0], u); }
    var s4 := [Lab(L(SwitchEnd, n)), Op(PopBlock), Op(PopTop)];
    Three(env, done, s4[0], s4[1], s4[2], u);
    Then5(env, done, ce, s0, cc, s1, s3, t, Some(Up(a, 1)), u, None, u, u);
    Then(env, done, ce + s0 + cc + s1 + s3, s4, t, u, t);
  }

  // ----- try -----

  function InBody(a: Place, n: nat): Place {
    Inside(a, TryRegion(a, n, Trying))
  }

  function InFinally(a: Place, n: nat): Place {
    Inside(a, TryRegion(a, n, Finishing))
  }

  function InMatch(a: Place, n: nat): Place {
    Inside(a, TryRegion(a, n, Matching))
  }

  ghost predicate TryPlaces(env: Env, n: nat, a: Place) {
    var b := InBody(a, n);
    && PlaceAt(env, L(TryCatch, n)) == InMatch(a, n)
    && PlaceAt(env, L(TryFinally, n)) == InFinally(a, n) && PlaceAt(env, L(TryEndFinally, n)) == InFinally(a, n)
    && (forall i: nat :: PlaceAt(env, Label(TryMatch, n, i)) == b)
    && (forall i: nat :: PlaceAt(env, Label(TryNoMatch, n, i)) == Up(InMatch(a, n), 1))
  }

  /** From the second catch on, the outcome of the last match lies on the stack, too. */
  function Offering(i: nat, a: Place, n: nat): Option<Place> {
    Some(Up(InMatch(a, n), if i == 0 then 0 else 1))
  }

  lemma MatchTyped(env: Env, done: set<Label>, n: nat, i: nat, classId: Id, id: Id, a: Place)
    requires TryPlaces(env, n, a) && Sane(env, InMatch(a, n).regions) && InMatch(a, n).depth == BaseOf(InMatch(a, n))
    ensures Typed(env, done, [Op(DupTop), Op(LoadId(classId)), Op(CompareEx), Op(JumpIfFalse(Label(TryNoMatch, n, i))), Op(PopTop),
                              Op(StoreId(id)), Lab(Label(TryMatch, n, i))], Some(InMatch(a, n)), Some(InBody(a, n)))
  {
    hide Typed, Sane, PlaceAt;
    var b, nm := InMatch(a, n), Label(TryNoMatch, n, i);
    var u, v := Some(b), Some(Up(b, 1));
    assert Down(Up(b, 1), 1) == b && Up(Up(b, 1), 1) == Up(b, 2) && Down(Up(b, 2), 1) == Up(b, 1);
    assert Caught(b) == InBody(a, n);
    var m0, m1 := [Op(DupTop), Op(LoadId(classId)), Op(CompareEx)], [Op(JumpIfFalse(nm)), Op(PopTop)];
    var m2 := [Op(StoreId(id)), Lab(Label(TryMatch, n, i))];
    Three(env, done, m0[0], m0[1], m0[2], u);
    Two(env, done, m1[0], m1[1], v);
    Two(env, done, m2[0], m2[1], u);
    Then3(env, done, m0, m1, m2, u, v, u, Some(InBody(a, n)));
    assert m0 + m1 + m2 == [Op(DupTop), Op(LoadId(classId)), Op(CompareEx), Op(JumpIfFalse(nm)), Op(PopTop),
                            Op(StoreId(id)), Lab(Label(TryMatch, n, i))];
  }

  lemma CatchTyped(env: Env, done: set<Label>, n: nat, i: nat, classId: Id, id: Id, cb: Snippet, a: Place)
    requires TryPlaces(env, n, a) && Sane(env, InBody(a, n).regions) && Sane(env, InMatch(a, n).regions)
    requires Typed(env, done, cb, Some(InBody(a, n)), Some(InBody(a, n)))
    ensures Typed(env, done, CatchCode(n, i, classId, id, cb), Offering(i, a, n), Offering(i + 1, a, n))
  {
    hide Typed, Sane, PlaceAt;
    var b, m, nm := InBody(a, n), InMatch(a, n), Label(TryNoMatch, n, i);
    assert Down(Up(m, 1), 1) == m && Up(m, 0) == m;
    var s0 := if i != 0 then [Op(PopTop)] else [];
    Empty(env, done, Some(m));
    if i != 0 { One(env, done, s0[0], Some(Up(m, 1))); }
    MatchTyped(env, done, n, i, classId, id, a);
    var s1 := [Op(DupTop), Op(LoadId(classId)), Op(CompareEx), Op(JumpIfFalse(nm)), Op(PopTop),
               Op(StoreId(id)), Lab(Label(TryMatch, n, i))];
    var s2 := [Op(JumpForward(L(TryFinally, n))), Lab(nm)];
    Two(env, done, s2[0], s2[1], Some(b));
    Then3(env, done, s0, s1, cb, Offering(i, a, n), Some(m), Some(b), Some(b));
    Then(env, done, s0 + s1 + cb, s2, Offering(i, a, n), Some(b), Offering(i + 1, a, n));
  }

  lemma FinallyTyped(env: Env, done: set<Label>, n: nat, cf: Snippet, a: Place)
    requires TryPlaces(env, n, a) && Sane(env, InFinally(a, n).regions)
    requires Typed(env, done + {L(TryFinally, n)}, cf, Some(InFinally(a, n)), Some(InFinally(a, n)))
    ensures Typed(env, done, [Lab(L(TryFinally, n))] + (cf + [Lab(L(TryEndFinally, n)), Op(EndFinally)]), None, Some(a))
  {
    hide Typed, Sane, PlaceAt;
    var f, fin := InFinally(a, n), L(TryFinally, n);
    var s3 := [Lab(L(TryEndFinally, n)), Op(EndFinally)];
    assert Outside(f, f.depth - 1) == a;
    Two(env, done + {fin}, s3[0], s3[1], Some(f));
    Then(env, done + {fin}, cf, s3, Some(f), Some(f), Some(a));
    ThenBehind(env, done, fin, cf + s3, None, Some(a));
  }

  lemma TryTyped(env: Env, done: set<Label>, n: nat, cb: Snippet, ch: Snippet, count: nat, cf: Snippet, a: Place)
    requires Fit(env, a) && TryPlaces(env, n, a) && Sane(env, InBody(a, n).regions) && Sane(env, InMatch(a, n).regions)
    requires Sane(env, InFinally(a, n).regions)
    requires Typed(env, done, cb, Some(InBody(a, n)), Some(InBody(a, n)))
    requires Typed(env, done, ch, Offering(0, a, n), Offering(count, a, n))
    requires Typed(env, done + {L(TryFinally, n)}, cf, Some(InFinally(a, n)), Some(InFinally(a, n)))
    ensures Typed(env, done, TryCode(n, cb, ch, cf), Some(a), Some(a))
  {
    hide Typed, Sane, PlaceAt;
    var b, m, fin := InBody(a, n), InMatch(a, n), L(TryFinally, n);
    var setup := [Op(SetupExcept(L(TryCatch, n), fin, L(TryEndFinally, n)))];
    One(env, done, setup[0], Some(a));
    var s1 := [Op(JumpForward(fin)), Lab(L(TryCatch, n))];
    Two(env, done, s1[0], s1[1], Some(b));
    var s2 := [Op(PopTop), Op(JumpForward(fin))];
    assert Down(Up(m, 1), 1) == m && Caught(m) == b && Up(m, 0) == m;
    Two(env, done, s2[0], s2[1], Offering(count, a, n));
    Then5(env, done, setup, cb, s1, ch, s2, Some(a), Some(b), Some(b), Offering(0, a, n), Offering(count, a, n), None);
    FinallyTyped(env, done, n, cf, a);
    var s3 := [Lab(L(TryEndFinally, n)), Op(EndFinally)];
    Then(env, done, setup + cb + s1 + ch + s2, [Lab(fin)] + (cf + s3), Some(a), None, Some(a));
    assert TryCode(n, cb, ch, cf) == setup + cb + s1 + ch + s2 + ([Lab(fin)] + (cf + s3));
  }

  // ----- statements -----

  lemma {:induction false} StmtTyped(env: Env, done: set<Label>, s: Stmt, n: nat, cont: Option<Label>, here: bool, a: Place)
    requires WellFormed(s, cont.Some?) && Anchored(s, here) && Seat(env, done, a) && Jumps(env, a, cont, here)
    requires HasEnv(env, n, EnvStmt(s, n, a))
    ensures Typed(env, done, EmitStmt(s, n, cont), Some(a), Some(a))
    decreases s, 4
  {
    hide Typed, HasEnv, Seat, Jumps, EmitStmt, EnvStmt;
    if s.Group? {
      GroupIs(s, n, cont, a);
      StmtsTyped(env, done, s.items, n, cont, here, a);
    } else if s.If? {
      IfStmtTyped(env, done, s, n, cont, here, a);
    } else if s.While? {
      WhileStmtTyped(env, done, s, n, cont, a);
    } else if s.Do? {
      DoStmtTyped(env, done, s, n, cont, a);
    } else if s.For? {
      ForStmtTyped(env, done, s, n, cont, a);
    } else if s.Switch? {
      SwitchStmtTyped(env, done, s, n, cont, a);
    } else if s.Try? {
      TryStmtTyped(env, done, s, n, cont, a);
    } else {
      SimpleTyped(env, done, s, n, cont, here, a);
    }
  }

  lemma GroupIs(s: Stmt, n: nat, cont: Option<Label>, a: Place)
    requires s.Group?
    ensures EmitStmt(s, n, cont) == EmitStmts(s.items, n, cont) && EnvStmt(s, n, a) == EnvStmts(s.items, n, a)
  {
  }

  lemma SimpleTyped(env: Env, done: set<Label>, s: Stmt, n: nat, cont: Option<Label>, here: bool, a: Place)
    requires s.Nop? || s.Let? || s.Break? || s.BreakElse? || s.Continue? || s.Throw? || s.Return?
    requires WellFormed(s, cont.Some?) && Anchored(s, here) && Seat(env, done, a) && Jumps(env, a, cont, here)
    requires HasEnv(env, n, EnvStmt(s, n, a))
    ensures Typed(env, done, EmitStmt(s, n, cont), Some(a), Some(a))
  {
    hide Typed, HasEnv, Sane, PlaceAt, EmitExpr, EnvExpr, EmitAssign, EnvAssign;
    assert Up(a, 0) == a;
    Empty(env, done, Some(a));
    if s.Let? {
      AssignTyped(env, done, s.a, n, 0, a);
    } else if s.Throw? || s.Return? {
      LastTyped(env, done, s.e, if s.Throw? then Instr.Throw else Instr.Return, n, a);
    } else if !s.Nop? {
      One(env, done, EmitStmt(s, n, cont)[0], Some(a));
    }
  }

  /** A throw or a return. */
  lemma LastTyped(env: Env, done: set<Label>, e: Expr, i: Instr<Label>, n: nat, a: Place)
    requires (i.Throw? || i.Return?) && Seat(env, done, a) && HasEnv(env, n, EnvExpr(e, a))
    ensures Typed(env, done, EmitExpr(e, n) + [Op(i)], Some(a), Some(a))
  {
    hide Typed, HasEnv, Sane, PlaceAt, EmitExpr, EnvExpr;
    assert Down(Up(a, 1), 1) == a;
    ExprTyped(env, done, e, n, a);
    One(env, done, Op(i), Some(Up(a, 1)));
    Then(env, done, EmitExpr(e, n), [Op(i)], Some(a), Some(Up(a, 1)), Some(a));
  }

  lemma KeptJumps(env: Env, a: Place, cont: Option<Label>, here: bool, drift: nat)
    requires Jumps(env, a, cont, here)
    ensures Jumps(env, a, Kept(cont, drift), here)
  {
  }

  lemma {:induction false} StmtsTyped(env: Env, done: set<Label>, items: seq<Stmt>, n: nat, cont: Option<Label>, here: bool, a: Place)
    requires WellFormedItems(items, cont.Some?) && AnchoredItems(items, here) && Seat(env, done, a) && Jumps(env, a, cont, here)
    requires HasEnv(env, n, EnvStmts(items, n, a))
    ensures Typed(env, done, EmitStmts(items, n, cont), Some(a), Some(a))
    decreases items, 0
  {
    hide Typed, HasEnv, Seat, Jumps, EmitStmt, EnvStmt, StmtCount, WellFormed, Anchored, Drift;
    Empty(env, done, Some(a));
    if items != [] {
      var n1, cont2 := n + StmtCount(items[0]), Kept(cont, Drift(items[0]));
      EnvSplit(env, n, EnvStmt(items[0], n, a), EnvStmts(items[1..], n1, a));
      KeptJumps(env, a, cont, here, Drift(items[0]));
      StmtTyped(env, done, items[0], n, cont, here, a);
      StmtsTyped(env, done, items[1..], n1, cont2, here, a);
      Then(env, done, EmitStmt(items[0], n, cont), EmitStmts(items[1..], n1, cont2), Some(a), Some(a), Some(a));
    }
  }

  lemma {:induction false} IfStmtTyped(env: Env, done: set<Label>, s: Stmt, n: nat, cont: Option<Label>, here: bool, a: Place)
    requires s.If? && WellFormed(s, cont.Some?) && Anchored(s, here) && Seat(env, done, a) && Jumps(env, a, cont, here)
    requires HasEnv(env, n, EnvStmt(s, n, a))
    ensures Typed(env, done, EmitStmt(s, n, cont), Some(a), Some(a))
    decreases s, 3
  {
    hide Typed, HasEnv, Jumps, Seat, Sane, EmitExpr, EnvExpr, ExprCount, IfCode, BranchCode, PlaceAt, WhileCode, DoCode, ForCode,
      SwitchCode, TryCode, EmitStmts, EnvStmts, EmitCases, EnvCases, EmitCatches, EnvCatches, EmitAssign, EnvAssign, EmitInit,
      EnvInit, CasesCount, CatchesCount, StmtsCount, AssignCount, InitCount;
    SeatFits(env, done, a);
    var n1 := n + 1 + ExprCount(s.cond);
    var n2, cont2 := n1 + StmtCount(s.thn), Kept(cont, Drift(s.thn));
    var ve := if s.els.Some? then EnvStmt(s.els.value, n2, a) else [];
    var ce := if s.els.Some? then EmitStmt(s.els.value, n2, cont2) else [];
    EnvSplit4(env, n, [Entry(a, false)], EnvExpr(s.cond, a), EnvStmt(s.thn, n1, a), ve);
    IfPlaces(env, n, a);
    ExprTyped(env, done, s.cond, n + 1, a);
    StmtTyped(env, done, s.thn, n1, cont, here, a);
    KeptJumps(env, a, cont, here, Drift(s.thn));
    Empty(env, done, Some(a));
    if s.els.Some? { StmtTyped(env, done, s.els.value, n2, cont2, here, a); }
    BranchIs(n + 1, EmitExpr(s.cond, n + 1), EmitStmt(s.thn, n1, cont), ce);
    BranchTyped(env, done, L(IfElse, n + 1), L(IfEnd, n + 1), EmitExpr(s.cond, n + 1), EmitStmt(s.thn, n1, cont), ce, a, a);
  }

  lemma IfPlaces(env: Env, n: nat, a: Place)
    requires HasEnv(env, n, [Entry(a, false)])
    ensures PlaceAt(env, L(IfElse, n + 1)) == Up(a, 1) && PlaceAt(env, L(IfEnd, n + 1)) == a
  {
    EnvEntry(env, n, Entry(a, false));
  }

  lemma {:induction false} WhileStmtTyped(env: Env, done: set<Label>, s: Stmt, n: nat, cont: Option<Label>, a: Place)
    requires s.While? && WellFormed(s, false) && Anchored(s, false) && Seat(env, done, a)
    requires HasEnv(env, n, EnvStmt(s, n, a))
    ensures Typed(env, done, EmitStmt(s, n, cont), Some(a), Some(a))
    decreases s, 3
  {
    hide Typed, HasEnv, Jumps, Seat, Sane, EmitExpr, EnvExpr, ExprCount, WhileCode, PlaceAt, InWhile, WhilePlaces, IfCode,
      DoCode, ForCode, SwitchCode, TryCode, EmitStmts, EnvStmts, EmitCases, EnvCases, EmitCatches, EnvCatches, EmitAssign,
      EnvAssign, EmitInit, EnvInit, CasesCount, CatchesCount, StmtsCount, AssignCount, InitCount;
    var n1, here := n + 1 + ExprCount(s.cond), Some(L(WhileTop, n + 1));
    var n2, cont2, b := n1 + StmtCount(s.body), Kept(here, Drift(s.body)), InWhile(a, n + 1, s.els.Some?);
    var ve := if s.els.Some? then EnvStmt(s.els.value, n2, b) else [];
    var ce := if s.els.Some? then Some(EmitStmt(s.els.value, n2, cont2)) else None;
    EnvSplit4(env, n, [Entry(a, s.els.Some?)], EnvExpr(s.cond, b), EnvStmt(s.body, n1, b), ve);
    WhileSeat(env, done, n, s.els.Some?, Drift(s.body), a);
    ExprTyped(env, done, s.cond, n + 1, b);
    StmtTyped(env, done, s.body, n1, here, s.els.Some?, b);
    if s.els.Some? { StmtTyped(env, done, s.els.value, n2, cont2, true, b); }
    WhileTyped(env, done, n + 1, EmitExpr(s.cond, n + 1), EmitStmt(s.body, n1, here), ce, a);
  }

  lemma WhileSeat(env: Env, done: set<Label>, n: nat, withElse: bool, drift: nat, a: Place)
    requires HasEnv(env, n, [Entry(a, withElse)]) && Seat(env, done, a)
    ensures Fit(env, a) && WhilePlaces(env, n + 1, withElse, a)
    ensures var b, top := InWhile(a, n + 1, withElse), Some(L(WhileTop, n + 1));
            && Seat(env, done, b) && Fit(env, b) && Jumps(env, b, top, withElse) && Jumps(env, b, Kept(top, drift), withElse)
  {
    EnvEntry(env, n, Entry(a, withElse));
    assert WhilePlaces(env, n + 1, withElse, a);
    hide Sane, PlaceAt;
    var r := LoopRegion(WhileEnd, if withElse then Some(WhileElse) else None, n + 1, a.depth);
    SaneMore(env, a, r);
    SeatMore(env, done, a, r);
  }

  lemma {:induction false} DoStmtTyped(env: Env, done: set<Label>, s: Stmt, n: nat, cont: Option<Label>, a: Place)
    requires s.Do? && WellFormed(s, false) && Anchored(s, false) && Seat(env, done, a)
    requires HasEnv(env, n, EnvStmt(s, n, a))
    ensures Typed(env, done, EmitStmt(s, n, cont), Some(a), Some(a))
    decreases s, 3
  {
    hide Typed, HasEnv, Jumps, Seat, Sane, EmitExpr, EnvExpr, ExprCount, DoCode, PlaceAt, InDo, IfCode, WhileCode, ForCode,
      SwitchCode, TryCode, EmitStmts, EnvStmts, EmitCases, EnvCases, EmitCatches, EnvCatches, EmitAssign, EnvAssign, EmitInit,
      EnvInit, CasesCount, CatchesCount, StmtsCount, AssignCount, InitCount;
    var n1, here, b := n + 1 + StmtCount(s.body), Some(L(DoCmp, n + 1)), InDo(a, n + 1);
    EnvSplit3(env, n, [Entry(a, false)], EnvStmt(s.body, n + 1, b), EnvExpr(s.cond, b));
    DoSeat(env, done, n, a);
    StmtTyped(env, done, s.body, n + 1, here, false, b);
    ExprTyped(env, done, s.cond, n1, b);
    DoTyped(env, done, n + 1, EmitStmt(s.body, n + 1, here), EmitExpr(s.cond, n1), a);
  }

  lemma DoSeat(env: Env, done: set<Label>, n: nat, a: Place)
    requires HasEnv(env, n, [Entry(a, false)]) && Seat(env, done, a)
    ensures var b, m := InDo(a, n + 1), n + 1;
            && Fit(env, a) && Seat(env, done, b) && Fit(env, b) && Sane(env, b.regions) && Jumps(env, b, Some(L(DoCmp, m)), false)
            && PlaceAt(env, L(DoTop, m)) == b && PlaceAt(env, L(DoCmp, m)) == b && PlaceAt(env, L(DoEnd, m)) == b
            && PlaceAt(env, L(DoPreEnd, m)) == Up(b, 1)
  {
    EnvEntry(env, n, Entry(a, false));
    var r := LoopRegion(DoEnd, None, n + 1, a.depth);
    assert PlaceAt(env, r.end) == Inside(a, r);
    hide Sane;
    SaneMore(env, a, r);
    SeatMore(env, done, a, r);
  }

  lemma {:induction false} ForStmtTyped(env: Env, done: set<Label>, s: Stmt, n: nat, cont: Option<Label>, a: Place)
    requires s.For? && WellFormed(s, false) && Anchored(s, false) && Seat(env, done, a)
    requires HasEnv(env, n, EnvStmt(s, n, a))
    ensures Typed(env, done, EmitStmt(s, n, cont), Some(a), Some(a))
    decreases s, 3
  {
    hide Typed, HasEnv, Jumps, Seat, Sane, EmitExpr, EnvExpr, EmitInit, EnvInit, ExprCount, ForCode, PlaceAt, InFor, ForPlaces, IfCode,
      WhileCode, DoCode, SwitchCode, TryCode, EmitStmts, EnvStmts, EmitCases, EnvCases, EmitCatches, EnvCatches, EmitAssign,
      EnvAssign, CasesCount, CatchesCount, StmtsCount, AssignCount, InitCount;
    var n1, here, b := n + 1 + InitCount(s.init), Some(L(ForIncdec, n + 1)), InFor(a, n + 1);
    var n2 := n1 + ExprCount(s.cond);
    var n3, cont2 := n2 + StmtCount(s.body), Kept(here, Drift(s.body));
    EnvSplit5(env, n, [Entry(a, false)], EnvInit(s.init, a), EnvExpr(s.cond, b), EnvStmt(s.body, n2, b), EnvStmt(s.step, n3, b));
    ForSeat(env, done, n, Drift(s.body), a);
    InitTyped(env, done, s.init, n + 1, a);
    ExprTyped(env, done, s.cond, n1, b);
    StmtTyped(env, done, s.body, n2, here, false, b);
    StmtTyped(env, done, s.step, n3, cont2, false, b);
    ForTyped(env, done, n + 1, EmitInit(s.init, n + 1), EmitExpr(s.cond, n1), EmitStmt(s.body, n2, here), EmitStmt(s.step, n3, cont2), a);
  }

  lemma InitTyped(env: Env, done: set<Label>, i: Option<Assign>, n: nat, a: Place)
    requires (i.Some? ==> IsChain(i.value)) && Fit(env, a) && HasEnv(env, n, EnvInit(i, a))
    ensures Typed(env, done, EmitInit(i, n), Some(a), Some(a))
  {
    hide Typed, HasEnv, Sane, EmitAssign, EnvAssign;
    Empty(env, done, Some(a));
    assert Up(a, 0) == a;
    if i.Some? { AssignTyped(env, done, i.value, n, 0, a); }
  }

  lemma ForsAt(env: Env, n: nat, a: Place)
    requires HasEnv(env, n, [Entry(a, false)])
    ensures ForPlaces(env, n + 1, a)
  {
    hide PlaceAt, HasEnv, SwitchPlace, TryPlace, WhilePlace, InDo, InFor;
    forall l: Label | l.num == n + 1 ensures PlaceAt(env, l) == PlaceOf(Entry(a, false), l) { AtEntry(env, n, Entry(a, false), l); }
  }

  lemma ForSeat(env: Env, done: set<Label>, n: nat, drift: nat, a: Place)
    requires HasEnv(env, n, [Entry(a, false)]) && Seat(env, done, a)
    ensures var b, m := InFor(a, n + 1), n + 1;
            && Fit(env, a) && Seat(env, done, b) && Fit(env, b) && Sane(env, b.regions) && ForPlaces(env, m, a)
            && Jumps(env, b, Some(L(ForIncdec, m)), false) && Jumps(env, b, Kept(Some(L(ForIncdec, m)), drift), false)
  {
    hide Sane, PlaceAt, HasEnv;
    ForsAt(env, n, a);
    var r := LoopRegion(ForEnd, None, n + 1, a.depth);
    SaneMore(env, a, r);
    SeatMore(env, done, a, r);
  }

  lemma {:induction false} SwitchStmtTyped(env: Env, done: set<Label>, s: Stmt, n: nat, cont: Option<Label>, a: Place)
    requires s.Switch? && WellFormed(s, false) && Anchored(s, false) && Seat(env, done, a)
    requires HasEnv(env, n, EnvStmt(s, n, a))
    ensures Typed(env, done, EmitStmt(s, n, cont), Some(a), Some(a))
    decreases s, 3
  {
    hide Typed, HasEnv, Jumps, Seat, Sane, EmitExpr, EnvExpr, EmitCases, EnvCases, ExprCount, SwitchCode, PlaceAt, InSwitch,
      SwitchPlaces, IfCode, WhileCode, DoCode, ForCode, TryCode, EmitStmts, EnvStmts, EmitCatches, EnvCatches, EmitAssign,
      EnvAssign, EmitInit, EnvInit, CasesCount, CatchesCount, StmtsCount, AssignCount, InitCount;
    var n1, b := n + 1 + ExprCount(s.subject), InSwitch(a, n + 1);
    EnvSplit3(env, n, [Entry(a, false)], EnvExpr(s.subject, a), EnvCases(s.cases, n1, b));
    SwitchSeat(env, done, n, a);
    ExprTyped(env, done, s.subject, n + 1, a);
    CasesTyped(env, done, s.cases, 0, n + 1, n1, a);
    SwitchTyped(env, done, n + 1, EmitExpr(s.subject, n + 1), EmitCases(s.cases, 0, n + 1, n1), |s.cases|, Defaults(s.cases), a);
  }

  lemma AtEntry(env: Env, n: nat, e: Entry, l: Label)
    requires HasEnv(env, n, [e]) && l.num == n + 1
    ensures PlaceAt(env, l) == PlaceOf(e, l)
  {
    hide PlaceOf;
    EnvEntry(env, n, e);
  }

  lemma SwitchesAt(env: Env, n: nat, a: Place)
    requires HasEnv(env, n, [Entry(a, false)])
    ensures SwitchPlaces(env, n + 1, a)
    ensures PlaceAt(env, L(SwitchEnd, n + 1)) == InSwitch(a, n + 1) && PlaceAt(env, L(SwitchDefault, n + 1)) == InSwitch(a, n + 1)
  {
    hide PlaceAt, HasEnv, InSwitch, TryPlace, WhilePlace, BranchPlace, InDo, InFor;
    forall l: Label | l.num == n + 1 ensures PlaceAt(env, l) == PlaceOf(Entry(a, false), l) { AtEntry(env, n, Entry(a, false), l); }
  }

  lemma SwitchSeat(env: Env, done: set<Label>, n: nat, a: Place)
    requires HasEnv(env, n, [Entry(a, false)]) && Seat(env, done, a)
    ensures var b := InSwitch(a, n + 1);
            && Fit(env, a) && SwitchPlaces(env, n + 1, a) && Seat(env, done, b) && Sane(env, b.regions) && Jumps(env, b, None, true)
            && Reaches(0, b) == Some(b)
  {
    hide Sane, PlaceAt, HasEnv, SwitchPlaces;
    SwitchesAt(env, n, a);
    var r := LoopRegion(SwitchEnd, Some(SwitchDefault), n + 1, a.depth + 1);
    SaneMore(env, a, r);
    SeatMore(env, done, a, r);
  }

  lemma {:induction false} CasesTyped(env: Env, done: set<Label>, cases: seq<Case>, i: nat, own: nat, n: nat, a: Place)
    requires WellFormedCases(cases) && AnchoredCases(cases) && HasEnv(env, n, EnvCases(cases, n, InSwitch(a, own)))
    requires Fit(env, a) && SwitchPlaces(env, own, a) && Seat(env, done, InSwitch(a, own)) && Sane(env, InSwitch(a, own).regions)
    requires Jumps(env, InSwitch(a, own), None, true)
    ensures Typed(env, done, EmitCases(cases, i, own, n), if cases == [] then None else Reaches(i, InSwitch(a, own)), None)
    decreases cases, 5
  {
    hide Typed, HasEnv, Jumps, Sane, EmitExpr, EnvExpr, EmitStmt, EnvStmt, CaseCode, ExprCount, StmtCount, WellFormed, Anchored, PlaceAt, SwitchPlaces;
    Empty(env, done, None);
    if cases != [] {
      var c, b := cases[0], InSwitch(a, own);
      assert c.body < c;
      var n1 := n + (if c.test.Some? then ExprCount(c.test.value) else 0);
      var n2 := n1 + StmtCount(c.body);
      var ve := if c.test.Some? then EnvExpr(c.test.value, Up(b, 1)) else [];
      var test := if c.test.Some? then Some(EmitExpr(c.test.value, n)) else None;
      EnvSplit3(env, n, ve, EnvStmt(c.body, n1, b), EnvCases(cases[1..], n2, b));
      assert Up(Up(b, 1), 1) == Up(b, 2);
      if c.test.Some? { ExprTyped(env, done, c.test.value, n, Up(b, 1)); }
      StmtTyped(env, done, c.body, n1, None, true, b);
      CaseTyped(env, done, own, i, test, EmitStmt(c.body, n1, None), a);
      CasesTyped(env, done, cases[1..], i + 1, own, n2, a);
      Then(env, done, CaseCode(own, i, test, EmitStmt(c.body, n1, None)), EmitCases(cases[1..], i + 1, own, n2), Reaches(i, b), None, None);
    }
  }

  lemma {:induction false} TryStmtTyped(env: Env, done: set<Label>, s: Stmt, n: nat, cont: Option<Label>, a: Place)
    requires s.Try? && WellFormed(s, cont.Some?) && Anchored(s, false) && Seat(env, done, a)
    requires HasEnv(env, n, EnvStmt(s, n, a))
    ensures Typed(env, done, EmitStmt(s, n, cont), Some(a), Some(a))
    decreases s, 3
  {
    hide Typed, HasEnv, Jumps, Seat, Sane, EmitCatches, EnvCatches, CatchesCount, TryCode, PlaceAt, TryRegion, TryPlaces, IfCode,
      WhileCode, DoCode, ForCode, SwitchCode, EmitStmts, EnvStmts, EmitCases, EnvCases, EmitAssign, EnvAssign, EmitInit, EnvInit,
      EmitExpr, EnvExpr, ExprCount, CasesCount, StmtsCount, AssignCount, InitCount;
    var n1 := n + 1 + StmtCount(s.body);
    var n2 := n1 + CatchesCount(s.catches);
    var cont2, cont3 := Kept(cont, Drift(s.body)), Kept(cont, Drift(s.body) + DriftCatches(s.catches));
    var b, f := InBody(a, n + 1), InFinally(a, n + 1);
    EnvSplit4(env, n, [Entry(a, false)], EnvStmt(s.body, n + 1, b), EnvCatches(s.catches, n1, b), EnvStmt(s.fin, n2, f));
    TrySeat(env, done, n, cont, a);
    TrySeat(env, done, n, cont2, a);
    TrySeat(env, done, n, cont3, a);
    StmtTyped(env, done, s.body, n + 1, cont, true, b);
    CatchesTyped(env, done, s.catches, 0, n + 1, n1, cont2, a);
    StmtTyped(env, done + {L(TryFinally, n + 1)}, s.fin, n2, cont3, true, f);
    TryTyped(env, done, n + 1, EmitStmt(s.body, n + 1, cont), EmitCatches(s.catches, 0, n + 1, n1, cont2), |s.catches|, EmitStmt(s.fin, n2, cont3), a);
  }

  lemma TriesAt(env: Env, n: nat, a: Place)
    requires HasEnv(env, n, [Entry(a, false)])
    ensures TryPlaces(env, n + 1, a)
    ensures PlaceAt(env, L(TryCatch, n + 1)) == InMatch(a, n + 1) && PlaceAt(env, L(TryFinally, n + 1)) == InFinally(a, n + 1)
  {
    hide PlaceAt, HasEnv, Inside, TryRegion, SwitchPlace, WhilePlace, BranchPlace, InDo, InFor;
    forall l: Label | l.num == n + 1 ensures PlaceAt(env, l) == PlaceOf(Entry(a, false), l) { AtEntry(env, n, Entry(a, false), l); }
  }

  lemma TrySeat(env: Env, done: set<Label>, n: nat, cont: Option<Label>, a: Place)
    requires HasEnv(env, n, [Entry(a, false)]) && Seat(env, done, a)
    ensures var b, f := InBody(a, n + 1), InFinally(a, n + 1);
            && Fit(env, a) && TryPlaces(env, n + 1, a) && Seat(env, done, b) && Sane(env, b.regions) && Sane(env, f.regions)
            && Sane(env, InMatch(a, n + 1).regions)
            && Seat(env, done + {L(TryFinally, n + 1)}, f) && Jumps(env, b, cont, true) && Jumps(env, f, cont, true)
  {
    hide Sane, PlaceAt, HasEnv, TryPlaces;
    TriesAt(env, n, a);
    var r, m, q := TryRegion(a, n + 1, Trying), TryRegion(a, n + 1, Matching), TryRegion(a, n + 1, Finishing);
    SaneMore(env, a, m);
    SaneMore(env, a, r);
    SaneMore(env, a, q);
    SeatMore(env, done, a, r);
    DoneMore(env, done, L(TryFinally, n + 1), a);
    SeatMore(env, done + {L(TryFinally, n + 1)}, a, q);
  }

  lemma {:induction false} CatchesTyped(env: Env, done: set<Label>, catches: seq<Catch>, i: nat, own: nat, n: nat, cont: Option<Label>, a: Place)
    requires WellFormedCatches(catches, cont.Some?) && AnchoredCatches(catches) && HasEnv(env, n, EnvCatches(catches, n, InBody(a, own)))
    requires Fit(env, a) && TryPlaces(env, own, a) && Seat(env, done, InBody(a, own)) && Sane(env, InBody(a, own).regions)
    requires Sane(env, InMatch(a, own).regions)
    requires Jumps(env, InBody(a, own), cont, true)
    ensures Typed(env, done, EmitCatches(catches, i, own, n, cont), Offering(i, a, own), Offering(i + |catches|, a, own))
    decreases catches, 0
  {
    hide Typed, HasEnv, Jumps, Sane, EmitStmt, EnvStmt, CatchCode, StmtCount, WellFormed, Anchored, PlaceAt, TryPlaces, Drift;
    var b := InBody(a, own);
    Empty(env, done, Offering(i, a, own));
    if catches != [] {
      var h := catches[0];
      var n1, cont2 := n + StmtCount(h.body), Kept(cont, Drift(h.body));
      EnvSplit(env, n, EnvStmt(h.body, n, b), EnvCatches(catches[1..], n1, b));
      KeptJumps(env, b, cont, true, Drift(h.body));
      StmtTyped(env, done, h.body, n, cont, true, b);
      CatchTyped(env, done, own, i, h.classId, h.id, EmitStmt(h.body, n, cont), a);
      CatchesTyped(env, done, catches[1..], i + 1, own, n1, cont2, a);
      Then(env, done, CatchCode(own, i, h.classId, h.id, EmitStmt(h.body, n, cont)), EmitCatches(catches[1..], i + 1, own, n1, cont2),
           Offering(i, a, own), Offering(i + 1, a, own), Offering(i + |catches|, a, own));
    }
  }
}
