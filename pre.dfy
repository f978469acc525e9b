/**
 * src/pre.py: the precondition guard `pre`, the guarded `factorial`, and the
 * property checker that runs a predicate over generated argument tuples.
 *
 * Randomness is a parameter: every call to the random module is one uniform
 * draw `u` with `0.0 <= u < 1.0`, supplied in the order the calls are made.
 */
module Pre {

  /** A guarded call returns the wrapped function's result, or raises
      `PreconditionNotMatched`, whose message shows the arguments. */
  datatype Result<R, A> = Ok(value: R) | PreconditionNotMatched(args: A)

  /** `pre(cond)(function)(*args)`: `inner` calls the wrapped function only when
      `cond` holds of the arguments, and otherwise raises without calling it. */
  function Guard<A, R>(cond: A -> bool, wrapped: A -> R, args: A): (r: Result<R, A>)
    ensures r.Ok? <==> cond(args)
    ensures r.Ok? ==> r.value == wrapped(args)
    ensures r.PreconditionNotMatched? ==> r.args == args
  {
    if cond(args) then Ok(wrapped(args)) else PreconditionNotMatched(args)
  }

  /** `factorial` under `@pre(lambda n: n >= 0)`: every call, including each
      recursive one, first runs the guard. The guard trips exactly for a
      negative argument, so a call from `n >= 0` never raises, and its result
      is at least `n` and at least 1. */
  function Factorial(n: int): (r: Result<int, int>)
    ensures r.Ok? <==> n >= 0
    ensures r.Ok? ==> r.value >= n && r.value >= 1
    ensures r.PreconditionNotMatched? ==> r.args == n
    decreases if n >= 0 then n + 1 else 0
  {
    if !(n >= 0) then PreconditionNotMatched(n)
    else if n == 0 then Ok(1)
    else match Factorial(n - 1)
      case Ok(m) => Ok(n * m)
      case PreconditionNotMatched(a) => PreconditionNotMatched(a)
  }

  /** The recurrence of `factorial`: 1 at 0, and `n * factorial(n - 1)`
      above 0. */
  lemma FactorialRecurrence(n: int)
    requires n >= 0
    ensures n == 0 ==> Factorial(n) == Ok(1)
    ensures n > 0 ==> Factorial(n) == Ok(n * Factorial(n - 1).value)
  {
  }

  /** The types `generate` knows, and any other type object. */
  datatype Primitive = IntType | FloatType | ChrType | OtherType

  /** What `generate` returns: an int, a float, a one-character string, or
      None for a type it does not know. */
  datatype Sample = IntSample(i: int) | FloatSample(f: real) | ChrSample(c: char) | NoSample

  /** `random.randint(a, b)` from one uniform draw `u`: `a` plus the whole
      part of `u` times the width of the range. */
  function RandInt(a: int, b: int, u: real): (k: int)
    requires a <= b && 0.0 <= u < 1.0
    ensures a <= k <= b
  {
    var w := b - a + 1;
    assert 0.0 <= u * w as real < w as real by {
      assert u * w as real < 1.0 * w as real;
    }
    a + (u * w as real).Floor
  }

  /** `generate(t)` from the draw `u` that its one call to the random module
      returns: an int in [0, 100], a float in [0, 1), a character with a
      code in [0, 255], or None. */
  function Generate(t: Primitive, u: real): (s: Sample)
    requires 0.0 <= u < 1.0
    ensures t == IntType ==> s.IntSample? && 0 <= s.i <= 100
    ensures t == FloatType ==> s == FloatSample(u)
    ensures t == ChrType ==> s.ChrSample? && 0 <= s.c as int <= 255
    ensures t == OtherType ==> s == NoSample
  {
    match t
    case IntType => IntSample(RandInt(0, 100, u))
    case FloatType => FloatSample(u)
    case ChrType => ChrSample(RandInt(0, 255, u) as char)
    case OtherType => NoSample
  }

  /** Whether every draw is a valid uniform draw. */
  predicate ValidDraws(draws: seq<real>)
  {
    forall k :: 0 <= k < |draws| ==> 0.0 <= draws[k] < 1.0
  }

  /** `tuple(generate(t) for t in types)` from one draw per position, made
      in position order. */
  function GenerateTuple(types: seq<Primitive>, draws: seq<real>): (t: seq<Sample>)
    requires |draws| == |types| && ValidDraws(draws)
    ensures |t| == |types|
    ensures forall j :: 0 <= j < |types| ==> t[j] == Generate(types[j], draws[j])
  {
    if types == [] then [] else [Generate(types[0], draws[0])] + GenerateTuple(types[1..], draws[1..])
  }

  /** Draws for `number` tuples of `len(types)` positions: `draws[i][j]` is
      the draw made for position `j` of tuple `i`. */
  predicate ValidTestDraws(types: seq<Primitive>, number: nat, draws: seq<seq<real>>)
  {
    |draws| == number && forall i :: 0 <= i < number ==> |draws[i]| == |types| && ValidDraws(draws[i])
  }

  /** `generate_test_set(types, number)`: yields exactly `number` tuples of
      `len(types)` samples each, position `j` of tuple `i` generated for
      `types[j]` from its own draw. */
  function GenerateTestSet(types: seq<Primitive>, number: nat, draws: seq<seq<real>>): (sets: seq<seq<Sample>>)
    requires ValidTestDraws(types, number, draws)
    ensures |sets| == number
    ensures forall i :: 0 <= i < number ==> |sets[i]| == |types|
    ensures forall i, j :: 0 <= i < number && 0 <= j < |types| ==> sets[i][j] == Generate(types[j], draws[i][j])
  {
    if number == 0 then []
    else [GenerateTuple(types, draws[0])] + GenerateTestSet(types, number - 1, draws[1..])
  }

  /** What `check` does: return normally, or raise carrying the failing
      tuple. */
  datatype CheckOutcome = Passed | CheckFailed(testSet: seq<Sample>)

  /** The loop of `check` over given test tuples: it raises on the first
      tuple for which `pred` is false and returns normally when `pred` holds
      of every tuple. */
  function Check(pred: seq<Sample> -> bool, testSets: seq<seq<Sample>>): (r: CheckOutcome)
    ensures r == Passed <==> forall i :: 0 <= i < |testSets| ==> pred(testSets[i])
    ensures r.CheckFailed? ==>
              exists k :: 0 <= k < |testSets| && r.testSet == testSets[k] && !pred(testSets[k])
                          && forall j :: 0 <= j < k ==> pred(testSets[j])
  {
    if testSets == [] then Passed
    else if !pred(testSets[0]) then CheckFailed(testSets[0])
    else
      var r := Check(pred, testSets[1..]);
      assert r.CheckFailed? ==> exists k :: 1 <= k < |testSets| && r.testSet == testSets[k] && !pred(testSets[k])
                                            && forall j :: 0 <= j < k ==> pred(testSets[j]) by {
        if r.CheckFailed? {
          var k :| 0 <= k < |testSets| - 1 && r.testSet == testSets[1..][k] && !pred(testSets[1..][k])
                   && forall j :: 0 <= j < k ==> pred(testSets[1..][j]);
          assert forall j :: 0 <= j < k + 1 ==> pred(testSets[j]) by {
            forall j | 0 <= j < k + 1 ensures pred(testSets[j]) {
              if j > 0 {
                assert testSets[j] == testSets[1..][j - 1];
              }
            }
          }
        }
      }
      r
  }

  /** `check(pred, types)`: `check` over the default 100 generated tuples.
      It passes exactly when `pred` holds of the tuple generated from each of
      the 100 rows of draws. */
  function CheckGenerated(pred: seq<Sample> -> bool, types: seq<Primitive>, draws: seq<seq<real>>): (r: CheckOutcome)
    requires ValidTestDraws(types, 100, draws)
    ensures r == Passed <==> forall i :: 0 <= i < 100 ==> pred(GenerateTuple(types, draws[i]))
  {
    var sets := GenerateTestSet(types, 100, draws);
    assert forall i :: 0 <= i < 100 ==> sets[i] == GenerateTuple(types, draws[i]);
    Check(pred, sets)
  }

  /** The predicate the module checks: `lambda n: factorial(n) >= n`. */
  predicate FactorialAtLeastArg(testSet: seq<Sample>)
  {
    |testSet| == 1 && testSet[0].IntSample?
    && var n := testSet[0].i;
       Factorial(n).Ok? && Factorial(n).value >= n
  }

  /** The module-level check `check(lambda n: factorial(n) >= n, [int])`
      passes whatever the random draws are. */
  lemma FactorialCheckPasses(draws: seq<seq<real>>)
    requires ValidTestDraws([IntType], 100, draws)
    ensures CheckGenerated(FactorialAtLeastArg, [IntType], draws) == Passed
  {
  }
}
