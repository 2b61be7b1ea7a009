/** The values the bpipe layer passes around: Python objects seen abstractly,
    the `bpipe` adapter object, the builtin calls the dispatchers make, and what
    a dispatcher call evaluates to. */
module Values {

  datatype Option<+T> = None | Some(value: T)

  /** One tag per dispatcher of the module. The same tag names the builtin that
      the dispatcher forwards to (`builtins.abs` for `Abs`, ..., and
      `functools.reduce` for `Reduce`). */
  datatype Op =
    | Abs | All | Any | Ascii | Bin | Bool | Callable | Chr
    | Enumerate | Eval | Filter | Float | Frozenset | Hash | Hex | Id
    | Int | Len | List | Map | Max | Min | Oct | Ord | Reversed | Set
    | Sorted | Str | Sum | Tuple | Type | Zip | Reduce

  /** The signature shapes of the dispatchers. */
  datatype Shape =
    | Single     // `f(x=None)`
    | EnumerateShape  // `enumerate(iterable=None, start=None)`
    | EvalShape  // `eval(expression=None, *args)`
    | PredicateShape  // `filter(*args)`, `map(*args)`
    | IntShape   // `int(x=None, base=None)`
    | VariadicShape  // `max(*args)`, `min(*args)`, `sorted(*args)`, `sum(*args)`
    | ZipShape   // `zip(*args)`
    | ReduceShape  // `reduce(*args)`

  function ShapeOf(op: Op): Shape {
    match op
    case Enumerate => EnumerateShape
    case Eval => EvalShape
    case Filter => PredicateShape
    case Map => PredicateShape
    case Int => IntShape
    case Max => VariadicShape
    case Min => VariadicShape
    case Sorted => VariadicShape
    case Sum => VariadicShape
    case Zip => ZipShape
    case Reduce => ReduceShape
    case _ => Single
  }

  /** Dispatchers with the shape `f(x=None)`. */
  predicate IsUnary(op: Op) {
    ShapeOf(op) == Single
  }

  /** Dispatchers with the shape `f(*args)` that defer only on zero arguments. */
  predicate IsVariadic(op: Op) {
    ShapeOf(op) == VariadicShape
  }

  /** Dispatchers that take a leading predicate or mapping function. */
  predicate IsPredicateOp(op: Op) {
    ShapeOf(op) == PredicateShape
  }

  /** A Python object. Only what the routing inspects is kept: whether it is
      `None` or a Python int, whether `callable(...)` holds of it, and whether
      it is a `bpipe` instance. */
  datatype Value =
    | PyNone
    | IntVal(i: int)
    | Obj(id: nat, isCallable: bool)
    | Pipe(adapter: Adapter)

  /** Python's `callable(v)`: `bpipe` defines no `__call__`, so an adapter is not callable. */
  predicate IsCallable(v: Value) {
    v.Obj? && v.isCallable
  }

  /** The `bpipe` object: the dispatcher to call back and five optional slots.
      A slot holding `PyNone` (or `None` for `evalArgs`) is unset, exactly as the
      constructor's `None` defaults leave it. Nothing ever reassigns a field. */
  datatype Adapter = Bpipe(
    fn: Op,
    filterMapLambdaReduce: Value := PyNone,
    enumerateStart: Value := PyNone,
    evalArgs: Option<seq<Value>> := None,
    intBase: Value := PyNone,
    zipOther: Value := PyNone)

  /** The five slots, in the order `__ror__` tests them. */
  datatype Slot = PredicateSlot | StartSlot | ArgsSlot | BaseSlot | OtherSlot

  function Rank(s: Slot): nat {
    match s
    case PredicateSlot => 0
    case StartSlot => 1
    case ArgsSlot => 2
    case BaseSlot => 3
    case OtherSlot => 4
  }

  /** The slots of `a` that hold something other than `None`. */
  function Populated(a: Adapter): set<Slot> {
    (if a.filterMapLambdaReduce != PyNone then {PredicateSlot} else {})
    + (if a.enumerateStart != PyNone then {StartSlot} else {})
    + (if a.evalArgs.Some? then {ArgsSlot} else {})
    + (if a.intBase != PyNone then {BaseSlot} else {})
    + (if a.zipOther != PyNone then {OtherSlot} else {})
  }

  /** How many slots of `a` hold something other than `None`: the size of
      `Populated(a)`, counted slot by slot so that well-formedness needs no
      reasoning about set cardinality. */
  function SlotCount(a: Adapter): nat {
    (if a.filterMapLambdaReduce != PyNone then 1 else 0)
    + (if a.enumerateStart != PyNone then 1 else 0)
    + (if a.evalArgs.Some? then 1 else 0)
    + (if a.intBase != PyNone then 1 else 0)
    + (if a.zipOther != PyNone then 1 else 0)
  }

  /** Every dispatcher builds an adapter with at most one populated slot. */
  predicate WellFormed(a: Adapter) {
    SlotCount(a) <= 1
  }

  /** The adapter's one-kind view: one tagged auxiliary value, or none. */
  datatype Aux =
    | NoAux
    | Predicate(f: Value)
    | StartOffset(start: Value)
    | ExtraArgs(args: seq<Value>)
    | NumericBase(base: Value)
    | SecondarySeq(other: Value)

  function SlotOf(k: Aux): Slot
    requires !k.NoAux?
  {
    match k
    case Predicate(_) => PredicateSlot
    case StartOffset(_) => StartSlot
    case ExtraArgs(_) => ArgsSlot
    case NumericBase(_) => BaseSlot
    case SecondarySeq(_) => OtherSlot
  }

  /** The content of slot `s` of `a`, tagged with its kind. */
  function AuxAt(a: Adapter, s: Slot): Aux {
    match s
    case PredicateSlot => Predicate(a.filterMapLambdaReduce)
    case StartSlot => StartOffset(a.enumerateStart)
    case ArgsSlot => ExtraArgs(if a.evalArgs.Some? then a.evalArgs.value else [])
    case BaseSlot => NumericBase(a.intBase)
    case OtherSlot => SecondarySeq(a.zipOther)
  }

  /** The auxiliary kind of an adapter: its first populated slot in `__ror__`'s
      order, or `NoAux`. */
  function Kind(a: Adapter): (k: Aux)
    ensures k.NoAux? <==> Populated(a) == {}
    ensures !k.NoAux? ==> SlotOf(k) in Populated(a) && k == AuxAt(a, SlotOf(k))
    ensures !k.NoAux? ==> forall s :: s in Populated(a) ==> Rank(SlotOf(k)) <= Rank(s)
  {
    if a.filterMapLambdaReduce != PyNone then Predicate(a.filterMapLambdaReduce)
    else if a.enumerateStart != PyNone then StartOffset(a.enumerateStart)
    else if a.evalArgs.Some? then ExtraArgs(a.evalArgs.value)
    else if a.intBase != PyNone then NumericBase(a.intBase)
    else if a.zipOther != PyNone then SecondarySeq(a.zipOther)
    else NoAux
  }

  /** `__ror__`'s bind table: the argument list for binding operand `l` to an adapter of kind `k`. */
  function TableArgs(k: Aux, l: Value): seq<Value> {
    match k
    case NoAux => [l]
    case Predicate(f) => [f, l]
    case StartOffset(s) => [l, s]
    case ExtraArgs(xs) => [l] + xs
    case NumericBase(b) => [l, b]
    case SecondarySeq(o) => [l, o]
  }

  /** The constructor call `bpipe(op, <slot>=<value>)` for a tagged auxiliary value. */
  function Populate(op: Op, k: Aux): Adapter {
    match k
    case NoAux => Bpipe(op)
    case Predicate(f) => Bpipe(op, filterMapLambdaReduce := f)
    case StartOffset(s) => Bpipe(op, enumerateStart := s)
    case ExtraArgs(xs) => Bpipe(op, evalArgs := Some(xs))
    case NumericBase(b) => Bpipe(op, intBase := b)
    case SecondarySeq(o) => Bpipe(op, zipOther := o)
  }

  /** Whether the auxiliary value is something `__ror__` will see as set. */
  predicate AuxIsSet(k: Aux) {
    match k
    case NoAux => true
    case Predicate(f) => f != PyNone
    case StartOffset(s) => s != PyNone
    case ExtraArgs(_) => true
    case NumericBase(b) => b != PyNone
    case SecondarySeq(o) => o != PyNone
  }

  /** Keyword arguments the dispatchers pass to builtins. */
  datatype Keyword = Start | Base
  datatype Kwarg = Kwarg(name: Keyword, value: Value)

  /** A call into a builtin. The builtin itself is never evaluated here. */
  datatype Call = Call(fn: Op, args: seq<Value>, kwargs: seq<Kwarg>)

  /** What a call of one of the module's dispatchers evaluates to. */
  datatype Outcome =
    | Direct(call: Call)              // returns whatever the builtin call returns
    | Deferred(adapter: Adapter)      // returns a fresh `bpipe`
    | ReturnsNone                     // falls off the end of the function body
    | ArityError(op: Op, given: nat)  // Python raises TypeError: too many positional arguments
}
