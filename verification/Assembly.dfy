/** Assembler lines: instructions with symbolic labels, and label lines. */
module Assembly {
  import opened Values

  /** The kinds of labels, one for each label name pattern of the compiler. */
  datatype LabelKind =
    | AndEnd | OrEnd
    | IfElse | IfEnd
    | TernaryElse | TernaryEnd
    | CoalesceDefault | CoalesceEnd
    | DoTop | DoCmp | DoPreEnd | DoEnd
    | WhileTop | WhilePreElse | WhileElse | WhilePreEnd | WhileEnd
    | ForInit | ForTest | ForIncdec | ForPreEnd | ForEnd
    | ForeachLoop | ForeachPreElse | ForeachElse | ForeachPreEnd | ForeachEnd
    | SwitchBegin | SwitchDefault | SwitchEnd | CasePre | CaseTest | CaseBody
    | TryCatch | TryFinally | TryEndFinally | TryMatch | TryNoMatch

  /** A label name: its kind, the construct's number, and the number of the case or catch. */
  datatype Label = Label(kind: LabelKind, num: nat, sub: nat)

  /** Instructions over a type of jump targets: labels in the assembler, code offsets in the machine. */
  datatype Instr<+T> =
    | LoadConst(v: Value)
    | LoadId(id: Id)
    | StoreId(id: Id)
    | Operate(op: BinOp)
    | Compare(cmp: CmpOp)
    | CompareEx
    | PopTop
    | DupTop
    | JumpForward(to: T)
    | JumpIfTrue(to: T)
    | JumpIfFalse(to: T)
    | JumpIfFirstFalse(to: T)
    | JumpAbsolute(to: T)
    | SetupLoop(end: T)
    | SetupElseLoop(end: T, orElse: T)
    | PopBlock
    | ContinueLoop(to: T)
    | BreakLoop
    | BreakElseLoop
    | SetupExcept(onCatch: T, onFinally: T, endFinally: T)
    | EndFinally
    | Throw
    | Return
    | PackTuple(n: nat)
    | UnpackTuple(n: nat)
    | IterReset
    | IterFetch(n: nat)

  datatype Line = Code(i: Instr<Label>) | Lab(l: Label)

  /** How often a label is defined. */
  function Count(code: seq<Line>, l: Label): nat {
    if code == [] then 0 else (if code[0] == Lab(l) then 1 else 0) + Count(code[1..], l)
  }

  /** The first line that defines a label; past the end if none does. */
  function IndexOf(code: seq<Line>, l: Label): (i: nat)
    ensures i <= |code|
    ensures i < |code| ==> code[i] == Lab(l)
  {
    if code == [] || code[0] == Lab(l) then 0 else 1 + IndexOf(code[1..], l)
  }

  lemma {:induction false} CountAppend(a: seq<Line>, b: seq<Line>, l: Label)
    ensures Count(a + b, l) == Count(a, l) + Count(b, l)
  {
    if a == [] {
      assert a + b == b;
    } else {
      assert (a + b)[1..] == a[1..] + b;
      CountAppend(a[1..], b, l);
    }
  }

  /** A label that is defined once is found where it is defined. */
  lemma {:induction false} IndexOfUnique(code: seq<Line>, i: nat)
    requires i < |code| && code[i].Lab? && Count(code, code[i].l) <= 1
    ensures IndexOf(code, code[i].l) == i
  {
    if i > 0 {
      var l := code[i].l;
      assert code[1..][i - 1] == Lab(l);
      CountPositive(code[1..], i - 1);
      IndexOfUnique(code[1..], i - 1);
    }
  }

  lemma {:induction false} CountPositive(code: seq<Line>, i: nat)
    requires i < |code| && code[i].Lab?
    ensures Count(code, code[i].l) >= 1
  {
    if i > 0 { CountPositive(code[1..], i - 1); }
  }
}
