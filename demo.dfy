/**
 * The scenarios of the `__main__` block of src/fun.py, run against the
 * model: a `fact` built from a literal clause and a `PosInt()` clause, and a
 * `function` built from a non-linear clause `(X, X)` and a wildcard clause
 * `(_, _)`, both declared through one `Register`.
 */
module Demo {
  import opened Patterns
  import opened Matching
  import opened Dispatch
  import Pre

  /** `def fact(n): return 1` */
  const FactBase: ImplId := 0
  /** `def fact(n): return n * fact(n-1)` */
  const FactStep: ImplId := 1
  /** `def function(a, b): return a + b` */
  const Sum: ImplId := 2
  /** `def function(a, b): return a * b` */
  const Product: ImplId := 3

  /** The Variable object `X = Variable('x')`. */
  const X: Pattern := Variable(0)

  /** The clauses of `fact`, in declaration order. */
  const FactKeys: seq<seq<Pattern>> := [[Literal(Int(0))], [PosInt]]

  /** The clauses of `function`, in declaration order. */
  const FunctionKeys: seq<seq<Pattern>> := [[X, X], [Wildcard, Wildcard]]

  /** Dispatch over `fact`'s clauses: 0 selects the literal clause, 9 the
      `PosInt()` clause, and -1 no clause. */
  lemma FactDispatch()
    ensures FirstMatch(FactKeys, [Int(0)]) == Some(0)
    ensures FirstMatch(FactKeys, [Int(9)]) == Some(1)
    ensures FirstMatch(FactKeys, [Int(-1)]) == None
  {
  }

  /** Dispatch over `function`'s clauses: `(2, 2)` and `("a", "a")` select
      `(X, X)`, and `(2, 5)` falls through to `(_, _)`. */
  lemma FunctionDispatch()
    ensures FirstMatch(FunctionKeys, [Int(2), Int(2)]) == Some(0)
    ensures FirstMatch(FunctionKeys, [Str("a"), Str("a")]) == Some(0)
    ensures FirstMatch(FunctionKeys, [Int(2), Int(5)]) == Some(1)
  {
    MatchExamples();
    WildcardsMatchEverything([Wildcard, Wildcard], [Int(2), Int(5)]);
  }

  /** The `fact` part of the demo: `fact(0)` selects the literal clause,
      `fact(9)` the `PosInt()` clause, and `fact(-1)` raises `BadMatch`
      carrying its argument tuple. */
  method FactScenario() returns (fact0: Outcome, fact9: Outcome, factMinus1: Outcome)
    ensures fact0 == Called(0, FactBase)
    ensures fact9 == Called(1, FactStep)
    ensures factMinus1 == BadMatch([Int(-1)])
  {
    var register := new Register();
    var fact := register.Call("fact", FactBase, [Literal(Int(0))]);
    fact := register.Call("fact", FactStep, [PosInt]);
    assert fact.Keys() == FactKeys;
    FactDispatch();
    fact0 := fact.Call([Int(0)]);
    fact9 := fact.Call([Int(9)]);
    factMinus1 := fact.Call([Int(-1)]);
  }

  /** The `function` part of the demo: `function(2, 2)` and
      `function("a", "a")` select the non-linear clause `(X, X)`, and
      `function(2, 5)` falls through to the wildcard clause `(_, _)`. */
  method FunctionScenario() returns (twoTwo: Outcome, aa: Outcome, twoFive: Outcome)
    ensures twoTwo == Called(0, Sum)
    ensures aa == Called(0, Sum)
    ensures twoFive == Called(1, Product)
  {
    var register := new Register();
    var fun := register.Call("function", Sum, [X, X]);
    fun := register.Call("function", Product, [Wildcard, Wildcard]);
    assert fun.Keys() == FunctionKeys;
    FunctionDispatch();
    twoTwo := fun.Call([Int(2), Int(2)]);
    aa := fun.Call([Str("a"), Str("a")]);
    twoFive := fun.Call([Int(2), Int(5)]);
  }

  /** Registering the pattern tuple `(0,)` a second time: the duplicate
      test never fires, so `MultipleClauses` is not raised, the registry holds
      both copies, and dispatch still selects the first one. */
  method DuplicateScenario() returns (second: Registration, count: nat, zero: Outcome)
    ensures second == Registered
    ensures count == 2
    ensures zero == Called(0, FactBase)
  {
    var fact := new PatternMatcher();
    var first := fact.Register(FactBase, [Literal(Int(0))]);
    second := fact.Register(FactStep, [Literal(Int(0))]);
    count := |fact.registry|;
    assert fact.Keys() == [[Literal(Int(0))], [Literal(Int(0))]];
    SinglePositionMatch(Literal(Int(0)), Int(0));
    zero := fact.Call([Int(0)]);
  }

  /** `fact(n)` of the demo evaluated through dispatch: the literal clause
      returns 1, the `PosInt()` clause multiplies `n` by a dispatched call
      on `n - 1`; None is the `BadMatch` raised when no clause matches. */
  function DemoFact(n: int): Option<int>
    decreases if n > 0 then n else 0
  {
    match FirstMatch(FactKeys, [Int(n)])
    case None => None
    case Some(k) =>
      if k == 0 then Some(1)
      else
        SinglePositionMatch(PosInt, Int(n));
        match DemoFact(n - 1)
        case None => None
        case Some(m) => Some(n * m)
  }

  /** Dispatching `fact` computes the guarded factorial of src/pre.py for
      every argument it accepts, and raises `BadMatch` exactly for the
      negative ones. */
  lemma {:induction false} DemoFactIsFactorial(n: int)
    ensures n >= 0 ==> DemoFact(n) == Some(Pre.Factorial(n).value)
    ensures n < 0 ==> DemoFact(n) == None
    decreases if n > 0 then n else 0
  {
    SinglePositionMatch(Literal(Int(0)), Int(n));
    SinglePositionMatch(PosInt, Int(n));
    if n > 0 {
      DemoFactIsFactorial(n - 1);
    }
  }

  /** `fact(9)` returns 362880. */
  lemma DemoFactNine()
    ensures DemoFact(9) == Some(362880)
  {
    DemoFactIsFactorial(9);
  }
}
