/** The module's dispatchers and the adapter's two operator hooks.

    Every dispatcher returns either the builtin call it forwards to or a fresh
    adapter. The adapter stores the module's own dispatcher (never the builtin),
    so binding an operand calls that dispatcher again with positional arguments. */
module BPipe {
  import opened Values

  /** The value a parameter takes when the positional argument list is too
      short: every optional parameter of the module defaults to `None`. */
  function Arg(args: seq<Value>, i: nat): Value {
    if i < |args| then args[i] else PyNone
  }

  /** `abs`, `all`, `any`, `ascii`, `bin`, `bool`, `callable`, `chr`, `float`,
      `frozenset`, `hash`, `hex`, `id`, `len`, `list`, `oct`, `ord`, `reversed`,
      `set`, `str`, `tuple`, `type`: all `f(x=None)`. */
  function UnaryCall(op: Op, x: Value): (r: Outcome)
    requires IsUnary(op)
    ensures r.Deferred? || r.Direct?
    ensures r.Deferred? <==> x == PyNone
    ensures r.Deferred? ==> r.adapter.fn == op && Kind(r.adapter) == NoAux && WellFormed(r.adapter)
    ensures r.Direct? ==> r.call.fn == op && r.call.args == [x] && r.call.kwargs == []
  {
    if x == PyNone then Deferred(Bpipe(op)) else Direct(Call(op, [x], []))
  }

  /** `enumerate(iterable=None, start=None)`. */
  function EnumerateCall(iterable: Value, start: Value): (r: Outcome)
    ensures r.Deferred? || r.Direct?
    ensures r.Deferred? <==> iterable == PyNone
    ensures r.Deferred? ==>
      r.adapter.fn == Enumerate && WellFormed(r.adapter)
      && Kind(r.adapter) == StartOffset(if start == PyNone then IntVal(0) else start)
    ensures r.Direct? ==>
      r.call == Call(Enumerate, [iterable], [Kwarg(Start, if start == PyNone then IntVal(0) else start)])
  {
    if iterable == PyNone && start == PyNone then Deferred(Bpipe(Enumerate, enumerateStart := IntVal(0)))
    else if iterable == PyNone && start != PyNone then Deferred(Bpipe(Enumerate, enumerateStart := start))
    // `enumerate`'s third test, `iterable is not None`, always holds here
    else if start == PyNone then Direct(Call(Enumerate, [iterable], [Kwarg(Start, IntVal(0))]))
    else Direct(Call(Enumerate, [iterable], [Kwarg(Start, start)]))
  }

  /** `eval(expression=None, *args)`. */
  function EvalCall(expression: Value, args: seq<Value>): (r: Outcome)
    ensures r.Deferred? || r.Direct?
    ensures r.Deferred? <==> expression == PyNone
    ensures r.Deferred? ==> r.adapter.fn == Eval && WellFormed(r.adapter) && Kind(r.adapter) == ExtraArgs(args)
    ensures r.Direct? ==> r.call == Call(Eval, [expression] + args, [])
  {
    if expression != PyNone then Direct(Call(Eval, [expression] + args, []))
    else Deferred(Bpipe(Eval, evalArgs := Some(args)))
  }

  /** `filter(*args)` and `map(*args)`. */
  function PredicateCall(op: Op, args: seq<Value>): (r: Outcome)
    requires IsPredicateOp(op)
    ensures r.Direct? <==> |args| == 2
    ensures r.Deferred? <==> |args| == 1 && IsCallable(args[0])
    ensures r.Deferred? ==> r.adapter.fn == op && WellFormed(r.adapter) && Kind(r.adapter) == Predicate(args[0])
    ensures r.Direct? ==> r.call == Call(op, args, [])
    ensures r.ReturnsNone? || r.Direct? || r.Deferred?
  {
    if |args| == 2 then Direct(Call(op, args, []))
    else if |args| == 1 && IsCallable(args[0]) then Deferred(Bpipe(op, filterMapLambdaReduce := args[0]))
    else ReturnsNone
  }

  /** `int(x=None, base=None)`. */
  function IntCall(x: Value, base: Value): (r: Outcome)
    ensures r.Deferred? || r.Direct?
    ensures r.Deferred? <==> x == PyNone
    ensures r.Deferred? ==>
      r.adapter.fn == Int && WellFormed(r.adapter)
      && Kind(r.adapter) == (if base == PyNone then NoAux else NumericBase(base))
    ensures r.Direct? ==>
      r.call == Call(Int, [x], if base == PyNone then [] else [Kwarg(Base, base)])
  {
    if x == PyNone then
      if base == PyNone then Deferred(Bpipe(Int)) else Deferred(Bpipe(Int, intBase := base))
    else
      if base == PyNone then Direct(Call(Int, [x], [])) else Direct(Call(Int, [x], [Kwarg(Base, base)]))
  }

  /** `max(*args)`, `min(*args)`, `sorted(*args)` and `sum(*args)`. */
  function VariadicCall(op: Op, args: seq<Value>): (r: Outcome)
    requires IsVariadic(op)
    ensures r.Deferred? || r.Direct?
    ensures r.Deferred? <==> args == []
    ensures r.Deferred? ==> r.adapter.fn == op && Kind(r.adapter) == NoAux && WellFormed(r.adapter)
    ensures r.Direct? ==> r.call == Call(op, args, [])
  {
    if |args| == 0 then Deferred(Bpipe(op)) else Direct(Call(op, args, []))
  }

  /** `zip(*args)`. The adapter is built even when the one argument is `None`,
      in which case its slot reads as unset. */
  function ZipCall(args: seq<Value>): (r: Outcome)
    ensures r.Deferred? || r.Direct?
    ensures r.Deferred? <==> |args| == 1
    ensures r.Deferred? ==>
      r.adapter.fn == Zip && WellFormed(r.adapter)
      && Kind(r.adapter) == (if args[0] == PyNone then NoAux else SecondarySeq(args[0]))
    ensures r.Direct? ==> r.call == Call(Zip, args, [])
  {
    if |args| == 1 then Deferred(Bpipe(Zip, zipOther := args[0])) else Direct(Call(Zip, args, []))
  }

  /** `reduce(*args)`: reuses the predicate slot, with no `callable` test. */
  function ReduceCall(args: seq<Value>): (r: Outcome)
    ensures r.Deferred? || r.Direct?
    ensures r.Deferred? <==> |args| == 1
    ensures r.Deferred? ==>
      r.adapter.fn == Reduce && WellFormed(r.adapter)
      && Kind(r.adapter) == (if args[0] == PyNone then NoAux else Predicate(args[0]))
    ensures r.Direct? ==> r.call == Call(Reduce, args, [])
  {
    if |args| == 1 then Deferred(Bpipe(Reduce, filterMapLambdaReduce := args[0]))
    else Direct(Call(Reduce, args, []))
  }

  /** Calling the module's dispatcher `op` with positional arguments `args`:
      Python binds them to the dispatcher's parameters, filling the rest with
      their `None` defaults, and raises TypeError when there are more than the
      signature accepts. */
  function Apply(op: Op, args: seq<Value>): (r: Outcome)
    ensures r.ArityError? <==> (IsUnary(op) && |args| > 1) || ((op == Enumerate || op == Int) && |args| > 2)
    ensures r.ArityError? ==> r.op == op && r.given == |args|
  {
    match ShapeOf(op)
    case Single => if |args| <= 1 then UnaryCall(op, Arg(args, 0)) else ArityError(op, |args|)
    case EnumerateShape => if |args| <= 2 then EnumerateCall(Arg(args, 0), Arg(args, 1)) else ArityError(op, |args|)
    case EvalShape => EvalCall(Arg(args, 0), if |args| == 0 then [] else args[1..])
    case PredicateShape => PredicateCall(op, args)
    case IntShape => if |args| <= 2 then IntCall(Arg(args, 0), Arg(args, 1)) else ArityError(op, |args|)
    case VariadicShape => VariadicCall(op, args)
    case ZipShape => ZipCall(args)
    case ReduceShape => ReduceCall(args)
  }

  /** `bpipe.__ror__`: the operand `other | a`. The first populated slot decides
      the argument order: the result is `__ror__`'s bind table applied to the
      adapter's kind. */
  function Ror(a: Adapter, other: Value): (r: Outcome)
    ensures r == Apply(a.fn, TableArgs(Kind(a), other))
  {
    if a.filterMapLambdaReduce != PyNone then Apply(a.fn, [a.filterMapLambdaReduce, other])
    else if a.enumerateStart != PyNone then Apply(a.fn, [other, a.enumerateStart])
    else if a.evalArgs.Some? then Apply(a.fn, [other] + a.evalArgs.value)
    else if a.intBase != PyNone then Apply(a.fn, [other, a.intBase])
    else if a.zipOther != PyNone then Apply(a.fn, [other, a.zipOther])
    else Apply(a.fn, [other])
  }

  /** `bpipe.__rrshift__`: the operand `other >> a`, delegated to `__ror__`. */
  function RrShift(a: Adapter, other: Value): (r: Outcome)
    ensures r == Apply(a.fn, TableArgs(Kind(a), other))
  {
    Ror(a, other)
  }
}
