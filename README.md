# Type-dispatched overloads and structural mappers of MindSpore's composite operators

This project models the Python part of `mindspore/ops/composite/base.py` that has behaviour of its own:

- `MultitypeFuncGraph` is an overload table. `register` appends a (signature, implementation) entry. A call goes to the earliest entry whose signature accepts the runtime types of the arguments. A table with exactly one entry skips the type check.
- `Map` applies an operation row by row across sequences, one level deep.
- `HyperMap` does the same recursively, following the nesting of the first data argument.
- The `add_flags` and `core` decorators write the `_mindspore_flags` dict of a function object. `add_flags` updates the dict it finds in place; `core` binds a new one.

Modules:

- `Errors` (`errors.dfy`): the exceptions as an `Error` datatype, plus `Result` and `Option`.
- `Dtype` (`dtype.dfy`): the type oracle. The classifier `get_py_obj_dtype`, the subtype test `issubclass_` and the name lookup `typing.str_to_type` come from MindSpore's dtype module (`mstype`), which is defined outside `base.py` and is not part of this model. They are function-valued parameters over an abstract type `T`, and the name lookup may fail. This module also holds descriptor normalisation.
- `Registry` (`registry.dfy`): `MultitypeFuncGraph` is a class whose `entries` sequence `Register` extends. `Call` is the source's scanning loop, proved against a declarative first-match specification. `Dispatch` is the decision `Call` makes, fast path included, and `DispatchAfterAppend` states how registering one more entry changes it.
- `Mappers` (`mappers.dfy`): `Value<A> = Leaf(a) | Seq(kind, items)` stands for Python values, where `kind` is tuple or list. Calling a Python object is a parameter `apply`; a tuple or list is not callable. `Map` and `HyperMap` are pure functions, as in the source.
- `Flags` (`flags.dfy`): a `FlagDict` class for the Python dict, a `FunctionObject` class whose field refers to the dict its attribute lookup finds, and the decorators as methods. Two function objects may refer to the same dict, as instances do through a class attribute.
- `Scenarios` (`scenarios.dfy`): worked examples on concrete values.

The docstrings of `HyperMap` and `Map` (`base.py` lines 452 and 514) ask for data sequences of the same length. The code does not check this, and the model follows the code:

- Data arguments of different lengths are truncated silently to the shortest one, as Python's `map` does (lines 500 and 554).
- When a later argument has a leaf where the first has a tuple or list, `map` raises its TypeError "not iterable" (`NotIterable`). No other error reports the mismatch.
- Python's `map` takes an iterator of every argument before making any call. So a non-iterable argument raises even when the shortest sequence is empty.

## Model

| member | source | states |
|---|---|---|
| Registry.MultitypeFuncGraph.constructor | mindspore/ops/composite/base.py:393-395 | a new table has the given name and no entries |
| Registry.MultitypeFuncGraph.Register | mindspore/ops/composite/base.py:425-437 | if every descriptor converts, exactly one entry (converted types, fn) is appended at the end, earlier entries are kept, there is no duplicate check, and `fn` is returned; otherwise the conversion error is raised and the entries are unchanged |
| Registry.MultitypeFuncGraph.Call | mindspore/ops/composite/base.py:400-412 | the entry invoked is the one `Dispatch` picks, and ValueError when it picks none: with exactly one entry, that entry is invoked on the arguments whatever their number and types; otherwise the entry invoked is the earliest whose signature has one descriptor per argument and accepts every argument's runtime type; if no entry does, including the empty table, ValueError |
| Registry.SelectIsFirstMatch | mindspore/ops/composite/base.py:404-412 | the scan picks entry i exactly when i accepts and no earlier entry does, and finds nothing exactly when no entry accepts |
| Registry.ArityMismatchNeverSelected | mindspore/ops/composite/base.py:401-407 | an entry whose signature length differs from the argument count is never chosen by the type-checking scan, and so never by the dispatch of a table with other than one entry (a one-entry table calls its entry whatever the arity) |
| Registry.ShadowedEntryNeverSelected | mindspore/ops/composite/base.py:405-411 | an accepting entry preceded by another accepting entry is never reached, and resolution finds an entry, so no ValueError is raised (the implementation it calls may still raise) |
| Registry.SelectAfterAppend | mindspore/ops/composite/base.py:405-435 | on the type-checking scan alone, appending an entry keeps every resolution the earlier entries decide; the new entry is reached only when no earlier entry accepts and it does |
| Registry.DispatchAfterAppend | mindspore/ops/composite/base.py:401-435 | with the single-entry fast path: the first registered entry takes every call; registering a second makes the first answer only calls it accepts, sending the rest to the new entry when it accepts and to ValueError otherwise; from two entries on, earlier entries keep every call they decide and the new one is reached only when none accepts |
| Dtype.ConvertTypes | mindspore/ops/composite/base.py:426-433 | the signature converts exactly when every descriptor does: names go through the type lookup, type objects pass through, anything else is TypeError; the result has one type per descriptor, and a failure reports the first failing descriptor's error |
| Mappers.MinLen | mindspore/ops/composite/base.py:554 | the number of rows is the length of the shortest data sequence |
| Mappers.Collect | mindspore/ops/composite/base.py:554 | the row results are gathered in order: success exactly when every row succeeds, one value per row; otherwise the first failing row's exception |
| Mappers.ZipMap | mindspore/ops/composite/base.py:554 | no data argument raises TypeError; a data argument that is not a tuple or list raises TypeError; otherwise the result is a tuple as long as the shortest argument whose element i is the operation applied to row i, or the exception of the first failing row |
| Mappers.Map.Call | mindspore/ops/composite/base.py:548-554 | an unbound Map called with no arguments raises IndexError from `args[0]`; a bound one with no data raises `map`'s TypeError; a success is always a tuple; the rest is `ZipMap` and `MapUnboundTakesFirstArgument` |
| Mappers.MapUnboundTakesFirstArgument | mindspore/ops/composite/base.py:548-554 | a Map built without an operation uses its first argument as the operation and the rest as data, exactly as a Map bound to that operation does |
| Mappers.HyperApplyOutcome | mindspore/ops/composite/base.py:497-500 | if the first data argument is not a tuple or list, the operation is called on all the arguments; otherwise every argument must be iterable, and the result is a tuple, never a list, of the recursive results row by row, truncated to the shortest argument, or the first failing row's exception |
| Mappers.HyperMapMirrorsFirst | mindspore/ops/composite/base.py:489-500 | a successful result has a tuple wherever the first data argument has a tuple or list, with no more elements; when every argument conforms to the first one's nesting, the element counts are equal |
| Mappers.HyperMapAlignedSucceeds | mindspore/ops/composite/base.py:489-500 | when every argument conforms to the first one's nesting and the operation never raises, HyperMap raises nothing |
| Mappers.HyperMapOnFlatIsMap | mindspore/ops/composite/base.py:497-500 | when the first argument's elements are all leaves, HyperMap gives exactly Map's result |
| Mappers.HyperMap.Call | mindspore/ops/composite/base.py:489-500 | a bound HyperMap called with no arguments, or an unbound one with fewer than two, raises IndexError from `args_list[0]` / `args[0]`; the rest is `HyperApplyOutcome` and `HyperMapUnboundTakesFirstArgument` |
| Mappers.HyperMapUnboundTakesFirstArgument | mindspore/ops/composite/base.py:489-496 | a HyperMap built without an operation uses its first argument as the operation and hands it down every level, exactly as a HyperMap bound to it does |
| Flags.MergedFlags | mindspore/ops/composite/base.py:51-57 | the dict after add_flags has the old keys (none if the attribute was missing) plus the new ones; new flags win, and untouched old flags keep their values |
| Flags.CoreFlags | mindspore/ops/composite/base.py:78-82 | the dict after core holds exactly `core` and the given flags; `core` is true unless an explicit `core` flag overrides it, and earlier flags are dropped |
| Flags.Apply | mindspore/ops/composite/base.py:51-83 | applying a decorator returns the same object; add_flags updates the dict the object already reaches, so every holder of that dict sees the merged flags, or creates a new dict when there is none; core binds a newly allocated dict with the core flags and leaves the previous dict untouched |
| Flags.AddFlags | mindspore/ops/composite/base.py:34-61 | without a function, add_flags returns the decorator; with one, it merges the flags into the same dict object the function reached before (a new one if none) and returns the function |
| Flags.Core | mindspore/ops/composite/base.py:64-89 | without a function, core returns the decorator; with one, it binds a newly allocated dict holding the core flags, leaves the previously reached dict unchanged, and returns the function |
| Flags.AddFlagsIdempotent | mindspore/ops/composite/base.py:56 | adding the same flags twice leaves the same dict as adding them once |
| Flags.AddFlagsAfterCoreKeepsCore | mindspore/ops/composite/base.py:53-56 | add_flags after core keeps the core mark unless it sets `core` itself |
| Scenarios.ScenarioSignatures | mindspore/ops/composite/base.py:426-433 | ("Number", "Number") and ("Int", Int) normalise to their types, and a non-type descriptor gives TypeError |
| Scenarios.MapMultipliesElementwise | mindspore/ops/composite/base.py:548-554 | mapping multiplication over (2, 3, 4) and (10, 10, 10) gives (20, 30, 40) |
| Scenarios.MapTruncatesToShortest | mindspore/ops/composite/base.py:548-554 | mapping over (1, 2, 3) and (1, 2) gives two results |
| Scenarios.HyperMapSquaresNested | mindspore/ops/composite/base.py:461-479 | squaring ((1, 2), (3, 4)) with HyperMap gives ((1, 4), (9, 16)) |
| Scenarios.SharedFlagsScenario | mindspore/ops/composite/base.py:51-56 | two objects reaching one dict: add_flags on one shows in the other; core then gives the first its own dict and the shared one keeps its flags |
| Scenarios.HyperMapLeafAgainstTupleRaises | mindspore/ops/composite/base.py:497-500 | HyperMap over ((1, 2), 3) and (1, 2, 3) raises TypeError "not iterable": its first row pairs a tuple with a leaf |

## Left out

- `GradOperation` (lines 92-350) is not modelled. Its substance is the native differentiation engine, graph compilation and the PyNative executor.
- Native calls with no visible behaviour are not modelled:
  - `MultitypeFuncGraph_.register_fn` (line 434);
  - the `read_value` option's `set_signatures` (lines 396-398);
  - the `HyperMap_` and `Map_` initialisers (lines 482-487 and 541-546).
- `_ListAppend`, `_Tail` and `_ZipOperation` are not modelled: their Python `__call__` bodies are `pass`.
- The module-level `env_get` table (lines 607-613) is not modelled. It only calls native primitives.
- `Registry.MultitypeFuncGraph.Register` takes the descriptors and the function in one call. In the source, `register(*type_names)` first returns a decorator, which is then applied to `fn`.
- `Registry.MultitypeFuncGraph.Call` treats the runtime classifier as total. The model does not capture a classifier that raises on an unsupported object.
- Only tuples and lists are iterable in `Mappers`. Other Python iterables (strings, dicts, tensors) are leaves, so the model does not capture `map` iterating over them.
- `Mappers.Collect` computes every row's result and then reports the first failure. Python stops at the first failure. Operations are pure functions here, so the result is the same; side effects of later rows are not modelled.
- `Flags.FunctionObject` holds a reference to the dict its attribute lookup finds. The model does not separate an instance attribute from a class attribute, so it does not capture that `core`'s assignment creates an instance attribute that shadows the class's dict for that object only; the reference being rebound stands for this.
- `Flags` stores only boolean flag values, as the `add_flags` docstring asks (line 39). Other values Python would accept are not modelled.
- Exception messages are not modelled; only which exception is raised.
