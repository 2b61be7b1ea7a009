/** Chains of `|` and `>>`: what `l | f(...) | g(...)` evaluates to, given the
    behaviour of the builtins as a parameter, and its agreement with the nested
    direct calls `g(f(l, ...), ...)` that the pipe syntax replaces. */
module Pipeline {
  import opened Values
  import opened BPipe
  import opened Routing

  /** What a builtin does with a call: return a value or raise. */
  datatype Returned = Returns(value: Value) | Raises

  /** The builtins' own behaviour, which this model never computes. */
  type Builtins = Call -> Returned

  datatype Exception =
    | TooManyArguments(op: Op, given: nat)  // TypeError from binding positional arguments
    | BuiltinRaised(call: Call)             // propagated unchanged from the builtin
    | UnsupportedOperand(left: Adapter, right: Adapter)  // TypeError: `bpipe | bpipe`, `bpipe >> bpipe`

  datatype Result = Ok(value: Value) | Err(exception: Exception)

  /** The value a dispatcher call evaluates to, or the exception it raises. */
  function Evaluate(o: Outcome, builtins: Builtins): (r: Result)
    ensures o.Deferred? ==> r == Ok(Pipe(o.adapter))
    ensures o.ReturnsNone? ==> r == Ok(PyNone)
    ensures o.Direct? && builtins(o.call).Returns? ==> r == Ok(builtins(o.call).value)
    ensures o.Direct? && builtins(o.call).Raises? ==> r == Err(BuiltinRaised(o.call))
    ensures o.ArityError? ==> r == Err(TooManyArguments(o.op, o.given))
    ensures r.Err? <==> o.ArityError? || (o.Direct? && builtins(o.call).Raises?)
  {
    match o
    case Direct(c) => (match builtins(c) case Returns(v) => Ok(v) case Raises => Err(BuiltinRaised(c)))
    case Deferred(a) => Ok(Pipe(a))
    case ReturnsNone => Ok(PyNone)
    case ArityError(op, n) => Err(TooManyArguments(op, n))
  }

  /** `|` (`__ror__`) or `>>` (`__rrshift__`). */
  datatype Operator = Bar | Shift

  /** One link of a chain: an operator and the adapter on its right. */
  datatype Stage = Stage(operator: Operator, adapter: Adapter)

  /** The adapter's hook for `operator`: `__ror__` or `__rrshift__`. */
  function Operate(operator: Operator, left: Value, a: Adapter): Outcome {
    match operator
    case Bar => Ror(a, left)
    case Shift => RrShift(a, left)
  }

  /** `left | a` or `left >> a`. Python tries a reflected hook only when the two
      operands differ in type; `bpipe` defines no `__or__` or `__rshift__`, so
      an adapter on the left raises TypeError. Any other left operand's own
      `__or__`/`__rshift__` is taken to decline (true of `None`, numbers,
      strings, lists, tuples, ranges, sets and dicts, not of dict views), so
      Python falls back to the adapter's hook. */
  function Bind(operator: Operator, left: Value, a: Adapter, builtins: Builtins): (r: Result)
    ensures left.Pipe? ==> r == Err(UnsupportedOperand(left.adapter, a))
    ensures !left.Pipe? ==> r == Evaluate(Ror(a, left), builtins)
  {
    if left.Pipe? then Err(UnsupportedOperand(left.adapter, a))
    else Evaluate(Operate(operator, left, a), builtins)
  }

  /** `((l op1 a1) op2 a2) ... opn an`, grouped to the left as Python groups a
      chain of one operator; an exception ends the chain. */
  function Run(l: Value, stages: seq<Stage>, builtins: Builtins): Result
    decreases |stages|
  {
    if stages == [] then Ok(l)
    else
      var last := stages[|stages| - 1];
      match Run(l, stages[..|stages| - 1], builtins)
      case Err(e) => Err(e)
      case Ok(v) => Bind(last.operator, v, last.adapter, builtins)
  }

  /** The nested direct calls `pn(... p2(p1(l)) ...)`; an exception ends the
      evaluation. */
  function Nested(l: Value, ps: seq<Partial>, builtins: Builtins): Result
    requires forall i :: 0 <= i < |ps| ==> Shaped(ps[i])
    decreases |ps|
  {
    if ps == [] then Ok(l)
    else
      match Nested(l, ps[..|ps| - 1], builtins)
      case Err(e) => Err(e)
      case Ok(v) => Evaluate(DirectForm(ps[|ps| - 1], v), builtins)
  }

  /** Whether `r` is an adapter, which no operator accepts as its left operand. */
  predicate IsAdapter(r: Result) {
    r.Ok? && r.value.Pipe?
  }

  /** No adapter reaches an operator: neither `l` nor any of the nested values
      `p1(l)`, `p2(p1(l))`, ... that the chain's operators would receive. */
  predicate NoAdapterOperand(l: Value, ps: seq<Partial>, builtins: Builtins)
    requires forall i :: 0 <= i < |ps| ==> Deferrable(ps[i])
    decreases |ps|
  {
    ps == [] ||
    (NoAdapterOperand(l, ps[..|ps| - 1], builtins) && !IsAdapter(Nested(l, ps[..|ps| - 1], builtins)))
  }

  /** A builtin call that never hands back an adapter. */
  predicate NoAdapterFrom(builtins: Builtins, c: Call) {
    builtins(c).Returns? ==> !builtins(c).value.Pipe?
  }

  /** The chain `l op1 p1 op2 p2 ...` written with the deferred forms. */
  function Stages(ps: seq<Partial>, operators: seq<Operator>): (r: seq<Stage>)
    requires |operators| == |ps|
    requires forall i :: 0 <= i < |ps| ==> Deferrable(ps[i])
    ensures |r| == |ps|
    ensures forall i :: 0 <= i < |ps| ==>
      Deferrable(ps[i]) && Configure(ps[i]).Deferred?
      && r[i] == Stage(operators[i], Configure(ps[i]).adapter)
    decreases |ps|
  {
    if ps == [] then []
    else
      var n := |ps| - 1;
      assert Deferrable(ps[n]);
      assert Configure(ps[n]).Deferred?;
      Stages(ps[..n], operators[..n]) + [Stage(operators[n], Configure(ps[n]).adapter)]
  }

  /** The same chain with its operators replaced. */
  function WithOperators(stages: seq<Stage>, operators: seq<Operator>): (r: seq<Stage>)
    requires |operators| == |stages|
    ensures |r| == |stages|
    ensures forall i :: 0 <= i < |r| ==> r[i] == Stage(operators[i], stages[i].adapter)
  {
    seq(|stages|, i requires 0 <= i < |stages| => Stage(operators[i], stages[i].adapter))
  }

  /** Writing the calls as a pipe chain changes nothing as long as no adapter
      reaches an operator: `l | p1 | ... | pn` evaluates to `pn(... p1(l) ...)`
      for every choice of operators and every behaviour of the builtins,
      exceptions included. When an adapter does reach one (`None | abs() | str()`
      passes `bpipe(abs)` on), the chain raises TypeError there, while the
      nested calls go on. */
  lemma {:induction false} PipeMatchesNested(l: Value, ps: seq<Partial>, operators: seq<Operator>, builtins: Builtins)
    requires |operators| == |ps|
    requires forall i :: 0 <= i < |ps| ==> Deferrable(ps[i])
    ensures NoAdapterOperand(l, ps, builtins) ==> Run(l, Stages(ps, operators), builtins) == Nested(l, ps, builtins)
    ensures !NoAdapterOperand(l, ps, builtins) ==>
      Run(l, Stages(ps, operators), builtins).Err?
      && Run(l, Stages(ps, operators), builtins).exception.UnsupportedOperand?
  {
    if ps != [] {
      var n := |ps| - 1;
      var stages := Stages(ps, operators);
      assert stages[..n] == Stages(ps[..n], operators[..n]);
      var last := Configure(ps[n]).adapter;
      assert stages[n] == Stage(operators[n], last);
      PipeMatchesNested(l, ps[..n], operators[..n], builtins);
      if NoAdapterOperand(l, ps[..n], builtins) {
        match Nested(l, ps[..n], builtins)
        case Err(_) =>
        case Ok(v) =>
          if !v.Pipe? {
            DeferredMatchesDirect(ps[n], v);
            assert Operate(operators[n], v, last) == DirectForm(ps[n], v);
          }
      }
    }
  }

  /** `|` and `>>` are interchangeable anywhere in a chain. */
  lemma {:induction false} OperatorsAgree(l: Value, stages: seq<Stage>, operators: seq<Operator>, builtins: Builtins)
    requires |operators| == |stages|
    ensures Run(l, WithOperators(stages, operators), builtins) == Run(l, stages, builtins)
  {
    if stages != [] {
      var n := |stages| - 1;
      assert WithOperators(stages, operators)[..n] == WithOperators(stages[..n], operators[..n]);
      OperatorsAgree(l, stages[..n], operators[..n], builtins);
    }
  }

  /** A one-stage chain meets no adapter when its operand is not one. */
  lemma OneStageNoAdapter(xs: Value, p: Partial, builtins: Builtins)
    requires Deferrable(p)
    requires !xs.Pipe?
    ensures NoAdapterOperand(xs, [p], builtins)
  {
    assert [p][..0] == [];
  }

  /** A two-stage chain meets no adapter when neither its operand nor the first
      call's value is one. */
  lemma TwoStageNoAdapter(xs: Value, p: Partial, q: Partial, builtins: Builtins)
    requires Deferrable(p) && Deferrable(q)
    requires !xs.Pipe?
    requires !IsAdapter(Evaluate(DirectForm(p, xs), builtins))
    ensures NoAdapterOperand(xs, [p, q], builtins)
  {
    assert [p, q][..1] == [p];
    OneStageNoAdapter(xs, p, builtins);
  }

  /** `list(range(100) | enumerate()) == list(enumerate(range(100)))`:
      `enumerate()` holds start 0, the default of the direct call. */
  lemma EnumerateChain(xs: Value, builtins: Builtins)
    requires xs.Obj?
    requires NoAdapterFrom(builtins, Call(Enumerate, [xs], [Kwarg(Start, IntVal(0))]))
    ensures Run(xs, [Stage(Bar, Bpipe(Enumerate, enumerateStart := IntVal(0))), Stage(Bar, Bpipe(List))], builtins)
         == Nested(xs, [EnumerateFrom(PyNone), UnaryOf(List)], builtins)
  {
    TwoStageNoAdapter(xs, EnumerateFrom(PyNone), UnaryOf(List), builtins);
    assert Stages([EnumerateFrom(PyNone), UnaryOf(List)], [Bar, Bar])
        == [Stage(Bar, Bpipe(Enumerate, enumerateStart := IntVal(0))), Stage(Bar, Bpipe(List))];
    PipeMatchesNested(xs, [EnumerateFrom(PyNone), UnaryOf(List)], [Bar, Bar], builtins);
  }

  /** `list(range(100) | enumerate(start=3)) == list(enumerate(range(100), start=3))`. */
  lemma EnumerateStartChain(xs: Value, builtins: Builtins)
    requires xs.Obj?
    requires NoAdapterFrom(builtins, Call(Enumerate, [xs], [Kwarg(Start, IntVal(3))]))
    ensures Run(xs, [Stage(Bar, Bpipe(Enumerate, enumerateStart := IntVal(3))), Stage(Bar, Bpipe(List))], builtins)
         == Nested(xs, [EnumerateFrom(IntVal(3)), UnaryOf(List)], builtins)
  {
    TwoStageNoAdapter(xs, EnumerateFrom(IntVal(3)), UnaryOf(List), builtins);
    assert Stages([EnumerateFrom(IntVal(3)), UnaryOf(List)], [Bar, Bar])
        == [Stage(Bar, Bpipe(Enumerate, enumerateStart := IntVal(3))), Stage(Bar, Bpipe(List))];
    PipeMatchesNested(xs, [EnumerateFrom(IntVal(3)), UnaryOf(List)], [Bar, Bar], builtins);
  }

  /** `list(filter(f, range(100))) == list(range(100) | filter(f))`, and the
      same for `map`. */
  lemma PredicateChain(op: Op, xs: Value, f: Value, builtins: Builtins)
    requires IsPredicateOp(op)
    requires xs.Obj?
    requires IsCallable(f)
    ensures Run(xs, [Stage(Bar, Bpipe(op, filterMapLambdaReduce := f))], builtins)
         == Evaluate(Direct(Call(op, [f, xs], [])), builtins)
  {
    var a := Bpipe(op, filterMapLambdaReduce := f);
    assert [Stage(Bar, a)][..0] == [];
    assert Run(xs, [Stage(Bar, a)], builtins) == Bind(Bar, xs, a, builtins);
    PredicateAgrees(op, f, xs);
    assert Ror(a, xs) == Direct(Call(op, [f, xs], []));
  }

  /** `list(reversed(_a)) == _a | reversed() | list()`. */
  lemma ReversedListChain(xs: Value, builtins: Builtins)
    requires xs.Obj?
    requires NoAdapterFrom(builtins, Call(Reversed, [xs], []))
    ensures Run(xs, [Stage(Bar, Bpipe(Reversed)), Stage(Bar, Bpipe(List))], builtins)
         == Nested(xs, [UnaryOf(Reversed), UnaryOf(List)], builtins)
  {
    TwoStageNoAdapter(xs, UnaryOf(Reversed), UnaryOf(List), builtins);
    PipeMatchesNested(xs, [UnaryOf(Reversed), UnaryOf(List)], [Bar, Bar], builtins);
  }

  /** `list(zip(_a, _b)) == _a | zip(_b) | list()`. */
  lemma ZipListChain(xs: Value, ys: Value, builtins: Builtins)
    requires xs.Obj? && ys.Obj?
    requires NoAdapterFrom(builtins, Call(Zip, [xs, ys], []))
    ensures Run(xs, [Stage(Bar, Bpipe(Zip, zipOther := ys)), Stage(Bar, Bpipe(List))], builtins)
         == Nested(xs, [ZipWith(ys), UnaryOf(List)], builtins)
  {
    TwoStageNoAdapter(xs, ZipWith(ys), UnaryOf(List), builtins);
    assert Stages([ZipWith(ys), UnaryOf(List)], [Bar, Bar])
        == [Stage(Bar, Bpipe(Zip, zipOther := ys)), Stage(Bar, Bpipe(List))];
    PipeMatchesNested(xs, [ZipWith(ys), UnaryOf(List)], [Bar, Bar], builtins);
  }

  /** `list(zip(_a, _b)) == _a >> zip(_b) >> list()`. */
  lemma ZipListShiftChain(xs: Value, ys: Value, builtins: Builtins)
    requires xs.Obj? && ys.Obj?
    requires NoAdapterFrom(builtins, Call(Zip, [xs, ys], []))
    ensures Run(xs, [Stage(Shift, Bpipe(Zip, zipOther := ys)), Stage(Shift, Bpipe(List))], builtins)
         == Nested(xs, [ZipWith(ys), UnaryOf(List)], builtins)
  {
    TwoStageNoAdapter(xs, ZipWith(ys), UnaryOf(List), builtins);
    assert Stages([ZipWith(ys), UnaryOf(List)], [Shift, Shift])
        == [Stage(Shift, Bpipe(Zip, zipOther := ys)), Stage(Shift, Bpipe(List))];
    PipeMatchesNested(xs, [ZipWith(ys), UnaryOf(List)], [Shift, Shift], builtins);
  }

  /** `reduce(add, [1, 2, 3]) == [1, 2, 3] >> reduce(add)`. */
  lemma ReduceShiftChain(xs: Value, add: Value, builtins: Builtins)
    requires xs.Obj?
    requires add != PyNone
    ensures Run(xs, [Stage(Shift, Configure(ReduceWith(add)).adapter)], builtins)
         == Evaluate(Direct(Call(Reduce, [add, xs], [])), builtins)
  {
    OneStageNoAdapter(xs, ReduceWith(add), builtins);
    PipeMatchesNested(xs, [ReduceWith(add)], [Shift], builtins);
  }

  /** `None | abs() | str()`: `None | abs()` is the adapter `bpipe(abs)`, and
      piping an adapter raises TypeError, although the nested `str(abs(None))`
      returns whatever `str` makes of the adapter. */
  lemma AdapterOperandRaises(builtins: Builtins)
    ensures Run(PyNone, [Stage(Bar, Bpipe(Abs)), Stage(Bar, Bpipe(Str))], builtins)
         == Err(UnsupportedOperand(Bpipe(Abs), Bpipe(Str)))
    ensures Nested(PyNone, [UnaryOf(Abs), UnaryOf(Str)], builtins)
         == Evaluate(Direct(Call(Str, [Pipe(Bpipe(Abs))], [])), builtins)
  {
    assert [Stage(Bar, Bpipe(Abs)), Stage(Bar, Bpipe(Str))][..1] == [Stage(Bar, Bpipe(Abs))];
    assert [UnaryOf(Abs), UnaryOf(Str)][..1] == [UnaryOf(Abs)];
  }
}
