/** Run-time values, and the object-level behaviour the virtual machine calls out to. */
module Values {

  datatype Option<+T> = None | Some(value: T)

  type Id = string

  /** Objects as immutable data.  `Exc` is an instance of a built-in exception class, `User` an
      instance of a user class (possibly one that extends `exception`), `List` a list object named
      by its position in `World.lists`. */
  datatype Value =
    | Null
    | Bool(b: bool)
    | Num(n: int)
    | Str(s: string)
    | Regex(pattern: string)
    | Tuple(items: seq<Value>)
    | Class(name: string)
    | Exc(className: string, code: int)
    | User(ref: nat)
    | List(ref: nat)

  /** Numerical objects are never exceptions; END_FINALLY relies on that. */
  type Thrown = v: Value | !v.Num? witness Null

  datatype BinOp = Add | Sub | Mul | Div | Mod | BitAnd | BitOr | BitXor | Shl | Shr

  datatype CmpOp = Eq | Ne | Lt | Gt | Le | Ge | Re | Nre

  /** What calling an object method yields: a value, an exception, or the end of the process. */
  datatype Result = Ok(v: Value) | Raise(x: Thrown) | Fatal

  /** Everything outside the frame: identifier tables that the frame only reads, the operator,
      comparison, cast and `instanceof` methods of objects, and the exceptions the machine creates. */
  datatype World = World(
    frameIds: map<Id, Value>,
    builtins: map<Id, Value>,
    operate: (BinOp, Value, Value) -> Result,
    compare: (CmpOp, Value, Value) -> Result,
    castsTrue: Value -> bool,
    isInstance: (Value, Value) -> bool,
    throwable: Value -> bool,
    missing: Id -> Thrown,
    notThrowable: Thrown,
    notTuple: Thrown,
    notIterator: Thrown,
    strayFinally: Thrown,
    lists: map<nat, seq<Value>>)

  type Vars = map<Id, Value>

  /** Booleans are tested directly, everything else through its `__boolean` method. */
  function Truth(w: World, v: Value): bool {
    if v.Bool? then v.b else w.castsTrue(v)
  }

  /** What it takes for a value to be taken as true: to be the boolean itself, or to be cast to it. */
  predicate Holds(w: World, v: Value) {
    v == Bool(true) || (!v.Bool? && w.castsTrue(v))
  }

  /** Local identifiers first, then the frame's, then the builtins. */
  function Lookup(w: World, vars: Vars, id: Id): (r: Result)
    ensures !r.Fatal?
  {
    if id in vars then Ok(vars[id])
    else if id in w.frameIds then Ok(w.frameIds[id])
    else if id in w.builtins then Ok(w.builtins[id])
    else Raise(w.missing(id))
  }

  function Max(a: int, b: int): int {
    if a < b then b else a
  }

  /** Element i of a tuple that is unpacked into more targets than it has elements. */
  function ItemOrNull(items: seq<Value>, i: nat): Value {
    if i < |items| then items[i] else Null
  }

  /** The first n elements of a tuple, with nulls if it has fewer. */
  function Padded(items: seq<Value>, n: nat): (r: seq<Value>)
    ensures |r| == n
  {
    seq(n, q requires q >= 0 => ItemOrNull(items, q))
  }

  // ----- iteration -----

  /** What one fetch from a list yields when its cursor is at `at`: an element if there is one, its key,
      whether there is one, and where the cursor is afterwards. */
  datatype Turn<+T> = Turn(value: Option<T>, key: nat, more: bool, next: nat)

  function TurnAt<T>(items: seq<T>, at: nat): Turn<T> {
    if at < |items| then Turn(Some(items[at]), at, true, at + 1) else Turn(None, at, false, at)
  }
}
