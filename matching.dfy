/**
 * `ArgMatcher` of src/fun.py: one clause's pattern tuple and the binding map
 * that `matches` fills while it walks the arguments.
 */
module Matching {
  import opened Patterns

  /** Variable bindings, keyed by the identity of the Variable object. */
  type Bindings = map<nat, Value>

  /** The number of positions `zip(types, args)` visits: the length of the
      shorter tuple. There is no arity check anywhere else. */
  function Common(types: seq<Pattern>, args: seq<Value>): (n: nat)
    ensures n <= |types| && n <= |args|
    ensures n == |types| || n == |args|
  {
    if |types| <= |args| then |types| else |args|
  }

  /** The walk of `matches` from position `i` with bindings `env`: whether it
      returns True, and the bindings it leaves behind. */
  function Scan(types: seq<Pattern>, args: seq<Value>, i: nat, env: Bindings): (bool, Bindings)
    requires i <= Common(types, args)
    decreases Common(types, args) - i
  {
    if i == Common(types, args) then (true, env)
    else match types[i]
      case Variable(x) =>
        if x in env then
          if env[x] != args[i] then (false, env) else Scan(types, args, i + 1, env)
        else Scan(types, args, i + 1, env[x := args[i]])
      case _ =>
        if !Equals(types[i], args[i]) then (false, env) else Scan(types, args, i + 1, env)
  }

  /** Whether `matches(args)` returns True for the pattern tuple `types`. */
  function Match(types: seq<Pattern>, args: seq<Value>): bool
  {
    Scan(types, args, 0, map[]).0
  }

  /** The bindings `matches(args)` leaves in `self.bindings`. */
  function MatchBindings(types: seq<Pattern>, args: seq<Value>): Bindings
  {
    Scan(types, args, 0, map[]).1
  }

  /** Reference definition of a successful match, stated position by position
      over the first `k` positions: every non-Variable pattern is `==` to its
      argument, and any two occurrences of one Variable see equal arguments. */
  ghost predicate Agree(types: seq<Pattern>, args: seq<Value>, k: nat)
    requires k <= Common(types, args)
  {
    && (forall i :: 0 <= i < k && !types[i].Variable? ==> Equals(types[i], args[i]))
    && (forall i, j :: 0 <= i < j < k && types[i].Variable? && types[i] == types[j] ==> args[i] == args[j])
  }

  /** Reference definition of the bindings after the first `k` positions:
      each Variable bound to the argument at its first occurrence. */
  ghost function FirstBindings(types: seq<Pattern>, args: seq<Value>, k: nat): Bindings
    requires k <= Common(types, args)
  {
    if k == 0 then map[]
    else
      var env := FirstBindings(types, args, k - 1);
      if types[k - 1].Variable? && types[k - 1].id !in env then env[types[k - 1].id := args[k - 1]]
      else env
  }

  /** The keys of `FirstBindings` are the Variables among the first `k`
      positions, and when those positions agree each key holds the argument
      of every occurrence of its Variable. */
  lemma {:induction false} FirstBindingsKeys(types: seq<Pattern>, args: seq<Value>, k: nat)
    requires k <= Common(types, args)
    ensures forall i :: 0 <= i < k && types[i].Variable? ==> types[i].id in FirstBindings(types, args, k)
    ensures forall x :: x in FirstBindings(types, args, k) ==> exists i :: 0 <= i < k && types[i] == Variable(x)
    ensures Agree(types, args, k) ==>
              forall i :: 0 <= i < k && types[i].Variable? ==> FirstBindings(types, args, k)[types[i].id] == args[i]
  {
    if k > 0 {
      FirstBindingsKeys(types, args, k - 1);
      var env := FirstBindings(types, args, k - 1);
      var t := types[k - 1];
      if Agree(types, args, k) {
        assert Agree(types, args, k - 1);
        forall i | 0 <= i < k && types[i].Variable?
          ensures FirstBindings(types, args, k)[types[i].id] == args[i]
        {
          if t.Variable? && t.id in env && i == k - 1 {
            var j :| 0 <= j < k - 1 && types[j] == Variable(t.id);
            assert args[j] == args[k - 1];
          }
        }
      }
    }
  }

  /** The walk agrees with the reference definitions: it succeeds exactly
      when every compared position agrees, succeeding it leaves the
      first-occurrence bindings, and failing it stops at the first position
      that breaks agreement, leaving the bindings made before that position. */
  lemma {:induction false} ScanAgrees(types: seq<Pattern>, args: seq<Value>, i: nat, env: Bindings)
    requires i <= Common(types, args)
    requires Agree(types, args, i) && env == FirstBindings(types, args, i)
    ensures Scan(types, args, i, env).0 <==> Agree(types, args, Common(types, args))
    ensures Scan(types, args, i, env).0 ==>
              Scan(types, args, i, env).1 == FirstBindings(types, args, Common(types, args))
    ensures !Scan(types, args, i, env).0 ==>
              exists k :: i <= k < Common(types, args) && Agree(types, args, k) && !Agree(types, args, k + 1)
                          && Scan(types, args, i, env).1 == FirstBindings(types, args, k)
    decreases Common(types, args) - i
  {
    var n := Common(types, args);
    if i < n {
      FirstBindingsKeys(types, args, i);
      var t := types[i];
      if t.Variable? && t.id in env && env[t.id] != args[i] {
        var j :| 0 <= j < i && types[j] == Variable(t.id);
        assert !Agree(types, args, i + 1);
        assert !Agree(types, args, n);
      } else if !t.Variable? && !Equals(t, args[i]) {
        assert !Agree(types, args, i + 1);
        assert !Agree(types, args, n);
      } else {
        assert Agree(types, args, i + 1) by {
          if t.Variable? && t.id !in env {
            forall j | 0 <= j < i && types[j].Variable?
              ensures types[j] != t
            {
            }
          }
        }
        ScanAgrees(types, args, i + 1, FirstBindings(types, args, i + 1));
      }
    }
  }

  /** `matches` returns True exactly when every position of the common
      prefix agrees; on success each Variable position `i` of the prefix has
      `bindings[types[i]] == args[i]`, and in every case the bindings hold
      only Variables of the compared prefix. */
  lemma MatchAgrees(types: seq<Pattern>, args: seq<Value>)
    ensures Match(types, args) <==> Agree(types, args, Common(types, args))
    ensures Match(types, args) ==>
              forall i :: 0 <= i < Common(types, args) && types[i].Variable? ==>
                types[i].id in MatchBindings(types, args) && MatchBindings(types, args)[types[i].id] == args[i]
    ensures forall x :: x in MatchBindings(types, args) ==>
              exists i :: 0 <= i < Common(types, args) && types[i] == Variable(x)
  {
    var n := Common(types, args);
    ScanAgrees(types, args, 0, map[]);
    if Match(types, args) {
      FirstBindingsKeys(types, args, n);
    } else {
      var k :| 0 <= k < n && Agree(types, args, k) && !Agree(types, args, k + 1)
               && MatchBindings(types, args) == FirstBindings(types, args, k);
      FirstBindingsKeys(types, args, k);
    }
  }

  /** `matches` returns False at the first position that fails, and the
      bindings it leaves are those made before that position. */
  lemma MatchStopsAtFirstFailure(types: seq<Pattern>, args: seq<Value>)
    requires !Match(types, args)
    ensures exists k :: 0 <= k < Common(types, args) && Agree(types, args, k) && !Agree(types, args, k + 1)
                        && MatchBindings(types, args) == FirstBindings(types, args, k)
  {
    ScanAgrees(types, args, 0, map[]);
  }

  /** Only the common prefix is compared: positions past the shorter tuple
      never influence the result. */
  lemma MatchIgnoresExtraPositions(types: seq<Pattern>, args: seq<Value>)
    ensures var n := Common(types, args);
            Match(types, args) == Match(types[..n], args[..n])
  {
    var n := Common(types, args);
    MatchAgrees(types, args);
    MatchAgrees(types[..n], args[..n]);
    assert Common(types[..n], args[..n]) == n;
  }

  /** A tuple made only of wildcards matches every argument tuple. */
  lemma WildcardsMatchEverything(types: seq<Pattern>, args: seq<Value>)
    requires forall i :: 0 <= i < |types| ==> types[i] == Wildcard
    ensures Match(types, args)
  {
    MatchAgrees(types, args);
  }

  /** A single position matches per its pattern's kind: `_` every value,
      `PosInt()` exactly the ints above zero, a literal exactly an equal
      value, and a Variable every value (binding it). */
  lemma SinglePositionMatch(t: Pattern, o: Value)
    ensures t.Any? ==> Match([t], [o])
    ensures t.PosInt? ==> (Match([t], [o]) <==> o.Int? && o.i > 0)
    ensures t.Literal? ==> (Match([t], [o]) <==> t.value == o)
    ensures t.Variable? ==> Match([t], [o]) && MatchBindings([t], [o]) == map[t.id := o]
  {
    assert Common([t], [o]) == 1;
    if t.Variable? {
      assert Scan([t], [o], 0, map[]) == Scan([t], [o], 1, map[t.id := o]);
    } else if Equals(t, o) {
      assert Scan([t], [o], 0, map[]) == Scan([t], [o], 1, map[]);
    }
  }

  /** The clause `(X, X)` of the module's demo accepts `(2, 2)` and
      `("a", "a")` and rejects `(2, 5)`; two different Variable objects never
      constrain each other; `(10,)` matches `(10, 99)` because only the common
      prefix is compared, and the empty tuple matches anything. */
  lemma MatchExamples()
    ensures var x := Variable(0);
            && Match([x, x], [Int(2), Int(2)])
            && MatchBindings([x, x], [Int(2), Int(2)]) == map[0 := Int(2)]
            && Match([x, x], [Str("a"), Str("a")])
            && !Match([x, x], [Int(2), Int(5)])
    ensures Match([Variable(0), Variable(1)], [Int(2), Int(5)])
    ensures Match([Literal(Int(10))], [Int(10), Int(99)])
    ensures Match([], [Int(1), Str("b")])
  {
  }

  /** An `ArgMatcher`: the pattern tuple of one registered clause and the
      bindings of its latest `matches` call. */
  class ArgMatcher {
    var bindings: Bindings
    const types: seq<Pattern>

    constructor (types: seq<Pattern>)
      ensures this.types == types && bindings == map[]
    {
      this.types := types;
      bindings := map[];
    }

    /** `matches(other)`: resets the bindings, then walks the common prefix
        of the patterns and the arguments, returning False at the first
        failing position. The result does not depend on the bindings left by
        earlier calls. */
    method Matches(other: seq<Value>) returns (ok: bool)
      modifies this`bindings
      ensures ok == Match(types, other)
      ensures bindings == MatchBindings(types, other)
      ensures ok <==> Agree(types, other, Common(types, other))
      ensures ok ==> forall i :: 0 <= i < Common(types, other) && types[i].Variable? ==>
                       types[i].id in bindings && bindings[types[i].id] == other[i]
    {
      bindings := map[];
      var n := Common(types, other);
      var i := 0;
      while i < n
        invariant 0 <= i <= n
        invariant Scan(types, other, 0, map[]) == Scan(types, other, i, bindings)
      {
        var t, o := types[i], other[i];
        if t.Variable? {
          if t.id in bindings {
            if bindings[t.id] != o {
              MatchAgrees(types, other);
              return false;
            }
          } else {
            bindings := bindings[t.id := o];
          }
        } else if !Equals(t, o) {
          MatchAgrees(types, other);
          return false;
        }
        i := i + 1;
      }
      MatchAgrees(types, other);
      return true;
    }
  }
}
