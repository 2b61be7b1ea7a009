/** What the routing promises: every dispatcher called with its primary argument
    omitted yields an adapter whose binding makes the same call as the direct
    form, and the five-slot adapter agrees with its one-kind view. */
module Routing {
  import opened Values
  import opened BPipe

  /** A dispatcher call with its primary argument omitted and its auxiliary
      arguments given: `abs()`, `enumerate(start=s)`, `eval(None, *args)`,
      `filter(f)`, `int(base=b)`, `max()`, `zip(o)`, `reduce(f)`. An omitted
      optional auxiliary argument is `PyNone`. */
  datatype Partial =
    | UnaryOf(op: Op)
    | EnumerateFrom(start: Value)
    | EvalWith(args: seq<Value>)
    | PredicateOf(op: Op, f: Value)
    | IntIn(base: Value)
    | VariadicOf(op: Op)
    | ZipWith(other: Value)
    | ReduceWith(f: Value)

  /** The tag names a dispatcher of the matching shape. */
  predicate Shaped(p: Partial) {
    match p
    case UnaryOf(op) => IsUnary(op)
    case PredicateOf(op, _) => IsPredicateOp(op)
    case VariadicOf(op) => IsVariadic(op)
    case _ => true
  }

  /** The dispatcher a partial call names. */
  function OpOf(p: Partial): Op {
    match p
    case UnaryOf(op) => op
    case EnumerateFrom(_) => Enumerate
    case EvalWith(_) => Eval
    case PredicateOf(op, _) => op
    case IntIn(_) => Int
    case VariadicOf(op) => op
    case ZipWith(_) => Zip
    case ReduceWith(_) => Reduce
  }

  /** The dispatcher call without its primary argument. */
  function Configure(p: Partial): Outcome
    requires Shaped(p)
  {
    match p
    case UnaryOf(op) => UnaryCall(op, PyNone)
    case EnumerateFrom(s) => EnumerateCall(PyNone, s)
    case EvalWith(args) => EvalCall(PyNone, args)
    case PredicateOf(op, f) => PredicateCall(op, [f])
    case IntIn(b) => IntCall(PyNone, b)
    case VariadicOf(op) => VariadicCall(op, [])
    case ZipWith(o) => ZipCall([o])
    case ReduceWith(f) => ReduceCall([f])
  }

  /** The same dispatcher called directly with `x` as its primary argument:
      `abs(x)`, `enumerate(x, start=s)`, `eval(x, *args)`, `filter(f, x)`,
      `int(x, base=b)`, `max(x)`, `zip(x, o)`, `reduce(f, x)`. */
  function DirectForm(p: Partial, x: Value): Outcome
    requires Shaped(p)
  {
    match p
    case UnaryOf(op) => UnaryCall(op, x)
    case EnumerateFrom(s) => EnumerateCall(x, s)
    case EvalWith(args) => EvalCall(x, args)
    case PredicateOf(op, f) => PredicateCall(op, [f, x])
    case IntIn(b) => IntCall(x, b)
    case VariadicOf(op) => VariadicCall(op, [x])
    case ZipWith(o) => ZipCall([x, o])
    case ReduceWith(f) => ReduceCall([f, x])
  }

  /** The calls whose deferred form stands for the direct form. */
  predicate Deferrable(p: Partial) {
    Shaped(p) &&
    match p
    case PredicateOf(_, f) => IsCallable(f)
    case ZipWith(o) => o != PyNone
    case ReduceWith(f) => f != PyNone
    case _ => true
  }

  /** Deferred and direct forms agree on every operand. */
  predicate Agrees(p: Partial, x: Value)
    requires Shaped(p)
  {
    Configure(p).Deferred? && Ror(Configure(p).adapter, x) == DirectForm(p, x)
  }

  /** `x | f()` is `f(x)` for every single-argument dispatcher and every operand,
      `None` included (both then give back the no-slot adapter). */
  lemma UnaryAgrees(op: Op, x: Value)
    requires IsUnary(op)
    ensures UnaryCall(op, PyNone) == Deferred(Bpipe(op))
    ensures Ror(Bpipe(op), x) == UnaryCall(op, x)
  {
  }

  /** `x | enumerate(start=s)` is `enumerate(x, start=s)`, and `x | enumerate()`
      is `enumerate(x)`, which starts at 0. */
  lemma EnumerateAgrees(start: Value, x: Value)
    ensures Agrees(EnumerateFrom(start), x)
    ensures Configure(EnumerateFrom(PyNone)).adapter == Bpipe(Enumerate, enumerateStart := IntVal(0))
  {
  }

  /** `x | eval(None, *args)` is `eval(x, *args)`; an empty `args` tuple is still
      a populated slot. */
  lemma EvalAgrees(args: seq<Value>, x: Value)
    ensures Agrees(EvalWith(args), x)
    ensures Kind(Configure(EvalWith(args)).adapter) == ExtraArgs(args)
  {
  }

  /** `filter(f)` and `map(f)` defer exactly when `f` is callable, and then
      `x | filter(f)` is `filter(f, x)`. */
  lemma PredicateAgrees(op: Op, f: Value, x: Value)
    requires IsPredicateOp(op)
    ensures Configure(PredicateOf(op, f)).Deferred? <==> IsCallable(f)
    ensures !IsCallable(f) ==> Configure(PredicateOf(op, f)) == ReturnsNone
    ensures IsCallable(f) ==> Agrees(PredicateOf(op, f), x)
  {
  }

  /** `x | int()` is `int(x)` and `x | int(base=b)` is `int(x, base=b)`. */
  lemma IntAgrees(base: Value, x: Value)
    ensures Agrees(IntIn(base), x)
    ensures Kind(Configure(IntIn(base)).adapter) == if base == PyNone then NoAux else NumericBase(base)
  {
  }

  /** `x | max()` is `max(x)`, and so for `min`, `sorted` and `sum`. */
  lemma VariadicAgrees(op: Op, x: Value)
    requires IsVariadic(op)
    ensures Agrees(VariadicOf(op), x)
  {
  }

  /** `x | zip(o)` is `zip(x, o)` exactly when `o` is not `None`: `zip(None)`
      builds an adapter whose slot reads as unset, so binding it calls `zip(x)`,
      which yields yet another adapter. */
  lemma ZipAgrees(o: Value, x: Value)
    ensures Configure(ZipWith(o)).Deferred?
    ensures Agrees(ZipWith(o), x) <==> o != PyNone
    ensures o == PyNone ==> Ror(Configure(ZipWith(o)).adapter, x) == Deferred(Bpipe(Zip, zipOther := x))
  {
    if o == PyNone {
      assert Ror(Bpipe(Zip), x) == ZipCall([x]);
    } else {
      assert Ror(Bpipe(Zip, zipOther := o), x) == ZipCall([x, o]);
    }
  }

  /** `x >> reduce(f)` is `reduce(f, x)` exactly when `f` is not `None`; no
      `callable` test guards the deferred form. */
  lemma ReduceAgrees(f: Value, x: Value)
    ensures Configure(ReduceWith(f)).Deferred?
    ensures Agrees(ReduceWith(f), x) <==> f != PyNone
    ensures f == PyNone ==>
      Ror(Configure(ReduceWith(f)).adapter, x) == Deferred(Bpipe(Reduce, filterMapLambdaReduce := x))
  {
    if f == PyNone {
      assert Ror(Bpipe(Reduce), x) == ReduceCall([x]);
    } else {
      assert Ror(Bpipe(Reduce, filterMapLambdaReduce := f), x) == ReduceCall([f, x]);
    }
  }

  /** The whole catalog: the deferred form stands for the direct form, on every
      operand, exactly for the deferrable calls. */
  lemma DeferredMatchesDirect(p: Partial, x: Value)
    requires Shaped(p)
    ensures Agrees(p, x) <==> Deferrable(p)
  {
    match p
    case UnaryOf(op) => UnaryAgrees(op, x);
    case EnumerateFrom(s) => EnumerateAgrees(s, x);
    case EvalWith(args) => EvalAgrees(args, x);
    case PredicateOf(op, f) => PredicateAgrees(op, f, x);
    case IntIn(b) => IntAgrees(b, x);
    case VariadicOf(op) => VariadicAgrees(op, x);
    case ZipWith(o) => ZipAgrees(o, x);
    case ReduceWith(f) => ReduceAgrees(f, x);
  }

  /** Building an adapter from one tagged value and reading its kind back gives
      that value, unless the value is `None`, which leaves every slot unset. */
  lemma PopulateKind(op: Op, k: Aux)
    ensures WellFormed(Populate(op, k)) && Populate(op, k).fn == op
    ensures Kind(Populate(op, k)) == k <==> AuxIsSet(k)
  {
  }

  /** A well-formed adapter is exactly the constructor call for its kind. */
  lemma KindPopulate(a: Adapter)
    requires WellFormed(a)
    ensures Populate(a.fn, Kind(a)) == a
  {
  }

  /** Binding reads the first populated slot only: slots after it never change
      the call. */
  lemma LaterSlotsIgnored(a: Adapter, other: Value)
    ensures !Kind(a).NoAux? ==> Ror(a, other) == Ror(Populate(a.fn, Kind(a)), other)
  {
  }

  /** `abs(-3) == -3 | abs()`, `chr(10) == 10 | chr()` and
      `callable(print) == print | callable()`, stated on the calls they make. */
  lemma UnaryImportAsserts(printFn: Value)
    requires IsCallable(printFn)
    ensures Ror(Configure(UnaryOf(Abs)).adapter, IntVal(-3)) == Direct(Call(Abs, [IntVal(-3)], []))
    ensures Ror(Configure(UnaryOf(Chr)).adapter, IntVal(10)) == Direct(Call(Chr, [IntVal(10)], []))
    ensures Ror(Configure(UnaryOf(Callable)).adapter, printFn) == Direct(Call(Callable, [printFn], []))
  {
    UnaryAgrees(Abs, IntVal(-3));
    UnaryAgrees(Chr, IntVal(10));
    UnaryAgrees(Callable, printFn);
  }

  /** `int("3") == "3" | int()`, `int("10", base=2) == "10" | int(base=2)` and
      `int(3) == 3 | int()`, stated on the calls they make. */
  lemma IntImportAsserts(text: Value)
    requires text.Obj?
    ensures Ror(Configure(IntIn(PyNone)).adapter, text) == Direct(Call(Int, [text], []))
    ensures Ror(Configure(IntIn(IntVal(2))).adapter, text) == Direct(Call(Int, [text], [Kwarg(Base, IntVal(2))]))
    ensures Ror(Configure(IntIn(PyNone)).adapter, IntVal(3)) == Direct(Call(Int, [IntVal(3)], []))
  {
    IntAgrees(PyNone, text);
    IntAgrees(IntVal(2), text);
    IntAgrees(PyNone, IntVal(3));
  }

  /** `"2+2" | eval() == eval("2+2")`, stated on the calls it makes. */
  lemma EvalImportAssert(text: Value)
    requires text.Obj?
    ensures Ror(Configure(EvalWith([])).adapter, text) == Direct(Call(Eval, [text], []))
  {
    EvalAgrees([], text);
  }

  /** `max(_a) == _a | max()` and `min(_a) == _a | min()`, stated on the calls
      they make. */
  lemma ExtremumImportAsserts(xs: Value)
    requires xs.Obj?
    ensures Ror(Configure(VariadicOf(Max)).adapter, xs) == Direct(Call(Max, [xs], []))
    ensures Ror(Configure(VariadicOf(Min)).adapter, xs) == Direct(Call(Min, [xs], []))
  {
    VariadicAgrees(Max, xs);
    VariadicAgrees(Min, xs);
  }
}
