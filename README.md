# Clause dispatch for Python functions, modelled in Dafny

This project models `fun.py`, a small library that gives Python functions
Erlang-style clauses. A `Register` object is used as a decorator. Each
decorated definition declares one clause of a function name: a tuple of
patterns paired with the body. Calling the name runs the body of the first
clause, in declaration order, whose patterns match the arguments. When no
clause matches, it raises `BadMatch`. There are four pattern kinds:

- a `Variable` binds its first argument; a later occurrence in the same
  tuple must see an equal argument;
- the wildcard `_` (an `Any` object) matches every value;
- `PosInt()` matches ints above zero;
- any other object is a literal, compared with `==`.

The companion module `pre.py` is also modelled. It has a precondition
decorator `pre(cond)`, a factorial guarded by it, and a small random
property checker.

Modules:

- `Patterns` (patterns.dfy): argument values (`Int` or `Str`), the four
  pattern kinds, and `Equals`, which is Python's `t == o` for a pattern and
  a value. A `Variable` is identified by a unique id that stands for its
  object identity.
- `Matching` (matching.dfy): the class `ArgMatcher`, whose `Matches` method
  resets and refills its `bindings` field in a loop. The method is proved
  against the specification function `Match`/`Scan`. `Scan` is proved equal
  to an independent, position-by-position reference (`Agree`,
  `FirstBindings`).
- `Dispatch` (dispatch.dfy): the class `PatternMatcher` holds the ordered
  registry (`registry: seq<Clause>`) and the class `Register` maps names to
  registries. Dispatch is proved against `FirstMatch`. Bodies are opaque
  implementation ids, so a call reports `Called(index, impl)` or
  `BadMatch(args)`.
- `Pre` (pre.dfy): `Guard` (`pre`/`inner`), `Factorial`, `Generate`,
  `GenerateTestSet`, `Check`, and the module-level check of factorial.
- `Demo` (demo.dfy): the scenarios of `fun.py`'s `__main__` block, run
  against the classes.

The model follows the code as written, also where it departs from what a
clause-dispatch library would be expected to do:

- There is no arity check. `matches` walks `zip(types, args)`, so only the
  common prefix is compared: `(10,)` matches `(10, 99)`.
- Duplicate clauses are never rejected. `register` tests
  `ArgMatcher(arg_type) in self.registry`. `ArgMatcher` defines `__hash__`
  but no `__eq__`, so registry keys compare by identity. A freshly built
  matcher is never found, and `MultipleClauses` is never raised. The model
  builds the matcher with `new`, and Dafny proves that the fresh object is
  not in the registry. Registering a tuple again appends a second copy,
  which the first copy shadows.
- Variables compare by object identity, not by name.
- Calling a name that was never declared is an ordinary Python `NameError`.
  There is no "unknown operation" error in the engine.

Python 2 semantics are assumed where they matter. The `Variable`, `Any` and
`PosInt` objects keep identity hashing, so the `bindings` dict is keyed by
Variable identity.

## Model

| member | source | states |
|---|---|---|
| `Matching.Common` | src/fun.py:49 | `zip` visits exactly the length of the shorter tuple: no more than either length, and equal to one of them |
| `Matching.ScanAgrees` | src/fun.py:49-58 | from any position reached with agreeing positions and first-occurrence bindings, the walk returns True iff every compared position agrees; success leaves the first-occurrence bindings; failure stops at the first disagreeing position, leaving the bindings made before it |
| `Matching.MatchAgrees` | src/fun.py:47-58 | `matches` returns True iff every non-Variable position is `==` to its argument and all occurrences of one Variable see equal arguments; on success `bindings[types[i]] == args[i]` at every Variable position of the prefix; the bindings only ever hold Variables of the compared prefix |
| `Matching.MatchStopsAtFirstFailure` | src/fun.py:50-57 | a failed match stops at the first position that breaks agreement; the bindings left are exactly those made before that position |
| `Matching.MatchIgnoresExtraPositions` | src/fun.py:49 | positions past the shorter tuple never change the result: matching equals matching the two truncated prefixes |
| `Matching.WildcardsMatchEverything` | src/fun.py:31-35 | a tuple made only of `_` matches every argument tuple |
| `Matching.SinglePositionMatch` | src/fun.py:23-39 | per pattern kind over every value: `_` always matches, `PosInt()` exactly the ints above 0, a literal exactly an equal value, a Variable every value and binds it |
| `Matching.MatchExamples` | src/fun.py:142-151 | `(X, X)` accepts `(2, 2)` and `("a", "a")` and rejects `(2, 5)`; two distinct Variable objects do not constrain each other; `(10,)` matches `(10, 99)`; `()` matches anything |
| `Matching.ArgMatcher.constructor` | src/fun.py:43-45 | a new matcher holds the given pattern tuple and empty bindings |
| `Matching.ArgMatcher.Matches` | src/fun.py:47-58 | the result and the new bindings are those of the specification walk from empty bindings, independent of earlier calls; True iff every compared position agrees; on success every Variable position is bound to its argument |
| `Dispatch.FirstMatch` | src/fun.py:74-79 | the selected index is the least one whose tuple matches; none is selected iff no tuple matches |
| `Dispatch.AppendKeepsEarlierClauses` | src/fun.py:81-86 | appending a clause never changes a dispatch that already selects a clause; otherwise the new clause is selected iff it matches |
| `Dispatch.DuplicateIsShadowed` | src/fun.py:84-86 | appending a tuple that is already registered changes no dispatch result |
| `Dispatch.PatternMatcher.constructor` | src/fun.py:71-72 | a new registry is empty |
| `Dispatch.PatternMatcher.Call` | src/fun.py:74-79 | the registry is unchanged; the first matching clause in insertion order is called, or `BadMatch` is raised carrying the arguments iff no clause matches |
| `Dispatch.PatternMatcher.Register` | src/fun.py:81-86 | `MultipleClauses` is never raised; exactly one clause with a fresh matcher is appended; earlier clauses and their order are unchanged |
| `Dispatch.Register.constructor` | src/fun.py:104-105 | a new decorator object has no names |
| `Dispatch.Register.Call` | src/fun.py:107-113 | the registry of `name` is created on first use and reused afterwards; the clause is appended to it and the registry returned; other names keep their registries and clauses; different names never share a registry |
| `Pre.Guard` | src/pre.py:5-16 | the wrapped function's result is returned iff the condition holds of the arguments; otherwise `PreconditionNotMatched` is raised carrying them |
| `Pre.Factorial` | src/pre.py:19-23 | the guard trips iff the argument is negative, so recursive calls from `n >= 1` never trip it; a returned value is at least `n` and at least 1 |
| `Pre.FactorialRecurrence` | src/pre.py:20-23 | `factorial(0) == 1` and `factorial(n) == n * factorial(n - 1)` for `n > 0` |
| `Pre.RandInt` | src/pre.py:29 | `randint(a, b)` lies in `[a, b]` |
| `Pre.Generate` | src/pre.py:27-33 | `generate(int)` lies in [0, 100]; `generate(float)` is the draw; `generate(chr)` has a code in [0, 255]; other types give None |
| `Pre.GenerateTuple` | src/pre.py:37 | one sample per type, position by position |
| `Pre.GenerateTestSet` | src/pre.py:35-37 | exactly `number` tuples, each of length `len(types)`, position `j` generated for `types[j]` |
| `Pre.Check` | src/pre.py:39-43 | returns normally iff `pred` holds of every tuple; otherwise raises carrying the first tuple for which `pred` is false |
| `Pre.CheckGenerated` | src/pre.py:39-40 | `check` passes iff `pred` holds of each of the 100 generated tuples |
| `Pre.FactorialCheckPasses` | src/pre.py:45 | the module-level check `factorial(n) >= n` passes for every outcome of the random draws |
| `Demo.FactDispatch` | src/fun.py:129-140 | over the clauses `(0)` then `(PosInt())`: 0 selects the literal clause, 9 the `PosInt` clause, -1 no clause |
| `Demo.FunctionDispatch` | src/fun.py:142-151 | over `(X, X)` then `(_, _)`: `(2, 2)` and `("a", "a")` select the first, `(2, 5)` the second |
| `Demo.FactScenario` | src/fun.py:126-140 | declared through a `Register`, `fact(0)` and `fact(9)` call the literal and `PosInt` bodies; `fact(-1)` raises `BadMatch((-1,))` |
| `Demo.FunctionScenario` | src/fun.py:142-151 | declared through a `Register`, `function(2, 2)` and `function("a", "a")` call `a + b`; `function(2, 5)` calls `a * b` |
| `Demo.DuplicateScenario` | src/fun.py:81-86 | registering `(0,)` twice raises nothing, stores two clauses, and dispatch on 0 still selects the first |
| `Demo.DemoFactIsFactorial` | src/fun.py:129-134 | `fact` evaluated through dispatch equals the guarded factorial of src/pre.py for every `n >= 0`, and raises `BadMatch` exactly for negative `n` |
| `Demo.DemoFactNine` | src/fun.py:136 | `fact(9)` returns 362880 |

## Left out

- Calling the selected body with `*args` (src/fun.py:77): bodies are opaque implementation ids. A `TypeError` from an arity mismatch after prefix matching is Python call machinery.
- Python hashing (src/fun.py:60-64): the registry is a sequence of entries keyed by object identity, which is how the dict treats `ArgMatcher` keys.
- `update_wrapper` and the copying of `__doc__`, `__name__` and `__module__` (src/fun.py:82, src/fun.py:116-121): reflection on function metadata. The function name is a parameter of `Register.Call`.
- `PatternException.__str__` message formatting (src/fun.py:9-10) and `Variable.__repr__`/`ArgMatcher.__repr__`: text rendering only.
- `bool` as a subclass of `int`, Python 2 `long`, and values other than ints and strings: the value domain is `Int | Str`.
- `Dispatch.PatternMatcher.Call`: does not state the bindings left behind in each matcher it tried; each one holds the bindings of its own `matches` call.
- The random module: each call is a uniform draw in [0, 1) supplied by the caller, in call order. `randint(a, b)` is modelled as `a + floor(u * (b - a + 1))`.
- `print` in `check` (src/pre.py:41) and in the `__main__` block: output only.
- Keyword arguments of `inner` (src/pre.py:10): the model passes one argument value.
- `Pre.FactorialAtLeastArg`: an exception raised inside the predicate (a negative argument reaching `factorial`) is modelled as the predicate being false. The generated ints are never negative, so this does not arise in the module-level check.
- `Demo.FactScenario` and `Demo.FunctionScenario`: the `__main__` block uses one `Register` for both names; the model gives each scenario its own. `Dispatch.Register.Call` proves that names never share or disturb each other's registries.
- Concurrency: the library is single-threaded and takes no locks.
