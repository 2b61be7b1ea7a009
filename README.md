# bpipe routing, modelled in Dafny

bpipe lets a Python program write `xs | sorted() | list()` instead of
`list(sorted(xs))`. The module `bpipe/bpipe.py` defines a small adapter class,
`bpipe`, and about thirty dispatcher functions named after builtins. A dispatcher
called with its primary argument forwards to the builtin. Called without it, the
dispatcher returns a `bpipe` that remembers which dispatcher to call back and at
most one auxiliary argument. When a value arrives on the left of `|` or `>>`,
the adapter calls that dispatcher again with the value and the auxiliary argument
in a fixed order.

This project models that routing: which call is made, with which arguments, in
which order, and which auxiliary slot wins. The builtins themselves are never
computed.

## How the model is built

- `values.dfy` (module `Values`): the data model.
  - A Python object is a `Value`. It can be `PyNone`, a Python int
    (`IntVal`), an opaque object with a `callable(...)` flag, or a `bpipe`
    instance (`Pipe`).
  - The `bpipe` object is the immutable datatype `Adapter`. It holds the
    dispatcher tag `fn` and the five constructor slots, each defaulting to
    `None` as in `__init__`.
  - A builtin call is an opaque `Call(fn, args, kwargs)`.
  - A dispatcher call evaluates to an `Outcome`: `Direct(call)`,
    `Deferred(adapter)`, `ReturnsNone` (the function falls off its end) or
    `ArityError` (Python's TypeError for too many positional arguments).
  - `Aux`, `Kind`, `TableArgs` and `Populate` give the adapter's one-kind
    view: one auxiliary kind with its value, and the argument order `__ror__`'s
    bind table gives each kind.
- `bpipe.dfy` (module `BPipe`): the dispatchers, `Apply`, `Ror` (`__ror__`) and
  `RrShift` (`__rrshift__`).
  - `Apply(op, args)` is a positional call of the module's own dispatcher `op`.
    The adapter stores the module function (`bpipe(abs)` inside `def abs`), not
    the builtin. So binding re-enters the dispatcher, and Python fills missing
    parameters with their `None` defaults.
- `routing.dfy` (module `Routing`): the deferred form of every dispatcher
  against its direct form, and the five slots against the one-kind view.
- `pipeline.dfy` (module `Pipeline`): chains `l | a1 | a2 ...` evaluated
  left-grouped, with the builtins' behaviour passed in as a function.
  - A chain equals the nested direct calls it replaces as long as no adapter
    reaches an operator; otherwise it raises TypeError.
  - `|` and `>>` are interchangeable in a chain grouped to the left, for left
    operands that fall back to the adapter's hooks (not dict views; see below).

Python `None` is a value, not an absent `Option`. For the named parameters
(`x` of the single-argument dispatchers, `enumerate`'s `iterable` and `start`,
`int`'s `x` and `base`, `eval`'s `expression`), omitting an argument and passing
`None` explicitly are the same. For the `*args` dispatchers they differ: `max()`
defers while `max(None)` calls the builtin, and `zip(None)` builds an adapter
while `zip()` calls the builtin. The slots test `is not None`, so the model
keeps `None` as a value.

Behaviours of `bpipe/bpipe.py` the model keeps as written:

- `filter`/`map` with no argument, one non-callable argument, or three or
  more arguments, fall off the end of the function and return `None`
  (bpipe/bpipe.py:162-166 and 272-276; `ReturnsNone`).
- `int`'s `base` defaults to `None`, and `int(x)` then calls the builtin
  without a `base` keyword (bpipe/bpipe.py:232-242).
- Binding calls the module's dispatcher, not the builtin
  (bpipe/bpipe.py:24-34), so:
  - Binding `None` to a deferred `abs()` gives back a new `abs()` adapter.
  - `zip(None)` and `reduce(None)` build an adapter whose slot holds `None`
    (bpipe/bpipe.py:407-408 and 420-421), which `__ror__` reads as "no
    slot". Binding it therefore yields another adapter, not `zip(x, None)` or
    `reduce(None, x)`. `ZipAgrees` and `ReduceAgrees` state this as an
    if-and-only-if.

A well-formed adapter populates at most one slot; every dispatcher's contract
says the adapters it builds are well-formed.

Binding never changes an adapter. The model's adapters are immutable values,
so binding one adapter twice, or to different operands, gives independent
results by construction.

## Model

| member | source | states |
|---|---|---|
| `Values.Kind` | bpipe/bpipe.py:24-33 | The adapter's kind is its highest-priority populated slot, in the order predicate, start, eval args, base, zip other. It is `NoAux` exactly when no slot is populated. |
| `BPipe.Ror` | bpipe/bpipe.py:23-34 | Binding operand `other` calls the adapter's dispatcher with `__ror__`'s bind table for the adapter's kind: `f(aux, L)` for a predicate, `f(L, aux)` for start/base/other, `f(L, *args)` for eval args, `f(L)` for none. |
| `BPipe.RrShift` | bpipe/bpipe.py:36-37 | Shifting `other` into an adapter with `>>` makes the same dispatcher call as `__ror__`: `__ror__`'s bind table for the adapter's kind. `Pipeline.OperatorsAgree` lifts this to whole chains. |
| `BPipe.Apply` | bpipe/bpipe.py:23-34 | Calling a dispatcher positionally raises TypeError exactly when a single-argument dispatcher gets more than one argument, or `enumerate`/`int` gets more than two. Otherwise the dispatcher routes the call. |
| `BPipe.UnaryCall` | bpipe/bpipe.py:40-44 | `f(x)` defers exactly when `x` is None, giving a well-formed no-slot adapter for the same dispatcher. Otherwise it calls builtin `f` with `x` alone. |
| `BPipe.EnumerateCall` | bpipe/bpipe.py:133-141 | Defers exactly when the iterable is None, with a well-formed adapter whose start is the given start, or 0 if none. Otherwise it calls `enumerate(iterable, start=...)` with the same default 0. |
| `BPipe.EvalCall` | bpipe/bpipe.py:149-153 | Defers exactly when the expression is None, keeping the extra args (possibly empty) in the args slot of a well-formed adapter. Otherwise it calls `eval(expression, *args)`. |
| `BPipe.PredicateCall` | bpipe/bpipe.py:162-166 | `filter`/`map` call the builtin directly exactly on two arguments, and defer exactly on one callable argument, with it in the predicate slot of a well-formed adapter. In every other case they return None. |
| `BPipe.IntCall` | bpipe/bpipe.py:232-242 | Defers exactly when `x` is None, with a well-formed adapter: no slot without a base, the base slot with one. Otherwise it calls `int(x)` or `int(x, base=base)`. |
| `BPipe.VariadicCall` | bpipe/bpipe.py:284-288 | `max`/`min`/`sorted`/`sum` defer exactly on zero arguments, with a well-formed no-slot adapter. Otherwise they forward all arguments unchanged. |
| `BPipe.ZipCall` | bpipe/bpipe.py:406-410 | Defers exactly on one argument, holding it as the other sequence of a well-formed adapter; a None argument leaves the slot unset. Otherwise it forwards all arguments to `zip`. |
| `BPipe.ReduceCall` | bpipe/bpipe.py:419-423 | Defers exactly on one argument, put in the predicate slot of a well-formed adapter with no callable test; a None argument leaves the slot unset. Otherwise it forwards all arguments to `functools.reduce`. |
| `Routing.UnaryAgrees` | bpipe/bpipe.py:40-47 | `abs()` is the no-slot adapter, and binding any operand to it equals `abs(x)`; the same holds for every single-argument dispatcher, `None` included. |
| `Routing.EnumerateAgrees` | bpipe/bpipe.py:133-145 | For every start (given or omitted) and operand, binding `x` to `enumerate(start=s)` equals `enumerate(x, start=s)`. `enumerate()` holds start 0. |
| `Routing.EvalAgrees` | bpipe/bpipe.py:149-156 | Binding `x` to `eval(None, *args)` equals `eval(x, *args)`, and the adapter's kind is the args slot even for empty args. |
| `Routing.PredicateAgrees` | bpipe/bpipe.py:272-281 | `map(f)`/`filter(f)` defer if and only if `f` is callable, and return None otherwise. When `f` is callable, binding `x` equals `map(f, x)`. |
| `Routing.IntAgrees` | bpipe/bpipe.py:232-247 | For every base (given or omitted) and operand, binding `x` to `int(base=b)` equals `int(x, base=b)`. Without a base, the adapter has no slot. |
| `Routing.VariadicAgrees` | bpipe/bpipe.py:291-300 | Binding `x` to `min()` equals `min(x)`, and likewise for `max`, `sorted` and `sum`. |
| `Routing.ZipAgrees` | bpipe/bpipe.py:406-415 | `zip(o)` always defers. Binding `x` equals `zip(x, o)` if and only if `o` is not None. For `o` None, binding yields the adapter `zip(x)`. |
| `Routing.ReduceAgrees` | bpipe/bpipe.py:419-430 | `reduce(f)` always defers. Binding `x` equals `reduce(f, x)` if and only if `f` is not None. For `f` None, binding yields the adapter `reduce(x)`. |
| `Routing.DeferredMatchesDirect` | bpipe/bpipe.py:40-423 | Across the whole catalog, the deferred form defers and binding any operand equals the direct form, if and only if the call is deferrable (callable predicate, non-None zip other or reduce function). |
| `Routing.PopulateKind` | bpipe/bpipe.py:7-33 | A constructor call with one keyword slot is well-formed. Reading its kind back gives the same kind and value if and only if the value is not None. |
| `Routing.KindPopulate` | bpipe/bpipe.py:7-33 | A well-formed adapter is exactly the constructor call for its dispatcher and its kind. |
| `Routing.LaterSlotsIgnored` | bpipe/bpipe.py:24-33 | Binding an adapter equals binding one that keeps only its first populated slot: later slots never affect the call. |
| `Routing.UnaryImportAsserts` | bpipe/bpipe.py:47-122 | Piping `-3` into `abs()`, `10` into `chr()` and `print` into `callable()` makes the same calls as `abs(-3)`, `chr(10)` and `callable(print)`. |
| `Routing.IntImportAsserts` | bpipe/bpipe.py:245-247 | Piping `"3"` into `int()`, `"10"` into `int(base=2)` and `3` into `int()` makes the same calls as the direct forms. |
| `Routing.EvalImportAssert` | bpipe/bpipe.py:156 | Piping `"2+2"` into `eval()` makes the same call as `eval("2+2")`. |
| `Routing.ExtremumImportAsserts` | bpipe/bpipe.py:298-300 | Piping `_a` into `max()` or `min()` makes the same call as `max(_a)` or `min(_a)`. |
| `Pipeline.Evaluate` | bpipe/bpipe.py:40-44 | A dispatcher call evaluates to the adapter it builds, to None when it falls through, or to the builtin's result. It raises exactly when the builtin raises (the exception passes through unchanged) or the positional arguments overflow the signature. |
| `Pipeline.Bind` | bpipe/bpipe.py:6-37 | An adapter on the left of the pipe or shift operator raises TypeError, because `bpipe` defines only the reflected hooks. Any other left operand gets the adapter's `__ror__` call, evaluated. |
| `Pipeline.PipeMatchesNested` | bpipe/bpipe.py:23-37 | For every operand, chain of deferrable calls, choice of operators that Python groups to the left (no `>>` after a pipe) and builtin behaviour: if no adapter reaches an operator (neither `l` nor any nested value `pk(...p1(l)...)` before the last call), piping `l` through `p1`, ..., `pn` evaluates to the nested direct calls `pn(...p1(l)...)`, builtin exceptions included. Otherwise the chain raises the unsupported-operand TypeError. |
| `Pipeline.OperatorsAgree` | bpipe/bpipe.py:36-37 | In a chain grouped to the left, replacing any operators (the pipe by `>>` or back) does not change its value. |
| `Pipeline.EnumerateChain` | bpipe/bpipe.py:144 | Piping `range(100)` through `enumerate()` and `list()` evaluates to `list(enumerate(range(100)))`: the adapter holds start 0, the direct default. This holds for an operand object and a builtin first call that does not return an adapter. |
| `Pipeline.EnumerateStartChain` | bpipe/bpipe.py:145 | Piping `range(100)` through `enumerate(start=3)` and `list()` evaluates to `list(enumerate(range(100), start=3))`. This holds for an operand object and a builtin first call that does not return an adapter. |
| `Pipeline.PredicateChain` | bpipe/bpipe.py:169-171 | Piping `range(100)` into `filter(f)` or `map(f)`, with `f` callable, evaluates to the direct `filter(f, range(100))` or `map(f, range(100))`. |
| `Pipeline.ReversedListChain` | bpipe/bpipe.py:345 | Piping `_a` through `reversed()` and `list()` evaluates to `list(reversed(_a))`. This holds for an operand object and a builtin first call that does not return an adapter. |
| `Pipeline.ZipListChain` | bpipe/bpipe.py:413-414 | Piping `_a` through `zip(_b)` and `list()` evaluates to `list(zip(_a, _b))`. This holds for an operand object and a builtin first call that does not return an adapter. |
| `Pipeline.ZipListShiftChain` | bpipe/bpipe.py:413-415 | Chaining `_a`, `zip(_b)` and `list()` with `>>` evaluates to `list(zip(_a, _b))`. This holds for an operand object and a builtin first call that does not return an adapter. |
| `Pipeline.ReduceShiftChain` | bpipe/bpipe.py:426-430 | `[1, 2, 3] >> reduce(add)` evaluates to `reduce(add, [1, 2, 3])`. |
| `Pipeline.AdapterOperandRaises` | bpipe/bpipe.py:6-44 | Piping `None` through `abs()` and then `str()` raises TypeError at the second operator, because piping `None` into `abs()` gives back the adapter `abs()`. The nested form `str(abs(None))` calls `str` on that adapter. |

## Left out

- The builtins' behaviour. This covers `abs`, `int` string parsing, `chr`/`ord`, `hex`/`oct`/`bin` formatting, `zip`, `sorted` and `functools.reduce`. A direct call is an opaque `Call` value. Where a chain needs its result, the behaviour is a function parameter (`Pipeline.Builtins`). So the numeric results in the import-time asserts (`== 6`, `== 5`, `== 4`, `== 2`, `== 1`) are not stated.
- `float` numerics: only its routing is kept, as one of the single-argument dispatchers.
- What `eval`, `id`, `hash` and `type` compute depends on interpreter state. Only their routing is modelled.
- The lazy, stateful iterators returned by `enumerate`, `map`, `filter`, `zip` and `reversed`.
- Executing the import-time `assert` lines, and `main()`, which does nothing. The asserts are stated as lemmas about the calls they compare.
- The builtins the module lists only in comments as skipped (`breakpoint`, `bytearray`, `compile`, `divmod`, `pow`, `round` and others).
- Left operands other than a `bpipe` whose own `__or__` or `__rshift__` does not decline a `bpipe`. For every other left operand the model takes Python's fallback to `__ror__`/`__rrshift__`. That fallback holds for `None`, `int`, `bool`, `str`, `list`, `tuple`, `range`, `set`, `frozenset` and `dict`. A `bpipe` on the left is modelled: it raises TypeError (`Pipeline.Bind`).
- The keys and items views of a dict. Their own `__or__` tries to iterate the `bpipe` and raises TypeError, so `d.keys()` piped into `sorted()` raises. They have no `__rshift__`, so shifting `d.keys()` into `sorted()` reaches `__rrshift__` and gives `sorted(d.keys())`. For these operands the pipe and `>>` differ; the model treats every non-adapter operand as falling back.
- Pipeline.Bind: the TypeError it raises for an adapter on the left (`UnsupportedOperand`) keeps the two adapters, not the operator symbol that Python's message names.
- Mixed chains where `>>` binds tighter than a preceding `|` (`a | b >> c`). `Pipeline.Run` models chains grouped to the left.
- Keyword misuse: an unknown keyword, or a parameter given twice, raises TypeError in Python. Only positional over-supply (`ArityError`) is modelled.
- Python objects are reduced to what the routing inspects: `None`, a `callable` flag, and adapter or not.
