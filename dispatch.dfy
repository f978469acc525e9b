/**
 * `PatternMatcher` and `Register` of src/fun.py: the insertion-ordered
 * clause registry of one function name, its first-match dispatch, and the
 * decorator object that keeps one registry per function name.
 *
 * The Python function stored with each clause is modelled by an opaque
 * implementation id; dispatch reports which clause it selected instead of
 * calling it.
 */
module Dispatch {
  import opened Patterns
  import opened Matching

  datatype Option<T> = None | Some(value: T)

  /** The implementation registered with a clause, as an opaque id. */
  type ImplId = nat

  /** What `PatternMatcher.__call__` does: call the implementation of the
      clause at `index`, or raise `BadMatch` carrying the argument tuple. */
  datatype Outcome = Called(index: nat, impl: ImplId) | BadMatch(args: seq<Value>)

  /** What `PatternMatcher.register` does: store the clause, or raise
      `MultipleClauses` carrying the implementation and the pattern tuple. */
  datatype Registration = Registered | MultipleClauses(impl: ImplId, types: seq<Pattern>)

  /** One registry entry: the `ArgMatcher` key and the implementation. */
  datatype Clause = Clause(matcher: ArgMatcher, impl: ImplId)

  /** The index of the first pattern tuple, in registration order, that
      matches `args`; None when no tuple matches. */
  function FirstMatch(keys: seq<seq<Pattern>>, args: seq<Value>): (r: Option<nat>)
    ensures r.Some? ==> r.value < |keys| && Match(keys[r.value], args)
    ensures r.Some? ==> forall j :: 0 <= j < r.value ==> !Match(keys[j], args)
    ensures r.None? <==> forall j :: 0 <= j < |keys| ==> !Match(keys[j], args)
  {
    if keys == [] then None
    else if Match(keys[0], args) then Some(0)
    else match FirstMatch(keys[1..], args)
      case None => None
      case Some(k) => Some(k + 1)
  }

  /** Appending a pattern tuple changes no dispatch that already selects a
      clause, and otherwise selects the new clause exactly when it matches. */
  lemma AppendKeepsEarlierClauses(keys: seq<seq<Pattern>>, types: seq<Pattern>, args: seq<Value>)
    ensures FirstMatch(keys + [types], args) ==
            if FirstMatch(keys, args).Some? then FirstMatch(keys, args)
            else if Match(types, args) then Some(|keys|)
            else None
  {
    var ks := keys + [types];
    var r := FirstMatch(ks, args);
    if FirstMatch(keys, args).Some? {
      var k := FirstMatch(keys, args).value;
      assert ks[k] == keys[k];
      assert r.Some? && r.value <= k;
      assert ks[r.value] == keys[r.value];
    } else if Match(types, args) {
      assert ks[|keys|] == types;
      assert r.Some?;
      assert forall j :: 0 <= j < |keys| ==> ks[j] == keys[j];
    } else {
      forall j | 0 <= j < |ks|
        ensures !Match(ks[j], args)
      {
        if j < |keys| {
          assert ks[j] == keys[j];
        }
      }
    }
  }

  /** Registering a pattern tuple that is already registered never changes
      any dispatch result: the earlier copy shadows the new one. */
  lemma DuplicateIsShadowed(keys: seq<seq<Pattern>>, types: seq<Pattern>, args: seq<Value>)
    requires types in keys
    ensures FirstMatch(keys + [types], args) == FirstMatch(keys, args)
  {
    AppendKeepsEarlierClauses(keys, types, args);
    if Match(types, args) {
      var j :| 0 <= j < |keys| && keys[j] == types;
      assert FirstMatch(keys, args).Some?;
    }
  }

  /** The implementations of a sequence of registry entries. */
  function ImplsOf(clauses: seq<Clause>): (fs: seq<ImplId>)
    ensures |fs| == |clauses|
    ensures forall i :: 0 <= i < |clauses| ==> fs[i] == clauses[i].impl
  {
    if clauses == [] then [] else [clauses[0].impl] + ImplsOf(clauses[1..])
  }

  /** The pattern tuples of a sequence of registry entries. */
  function KeysOf(clauses: seq<Clause>): (ks: seq<seq<Pattern>>)
    ensures |ks| == |clauses|
    ensures forall i :: 0 <= i < |clauses| ==> ks[i] == clauses[i].matcher.types
  {
    if clauses == [] then [] else [clauses[0].matcher.types] + KeysOf(clauses[1..])
  }

  /** A `PatternMatcher`: the ordered registry of one function name. */
  class PatternMatcher {
    var registry: seq<Clause>

    constructor ()
      ensures registry == []
    {
      registry := [];
    }

    /** The registered pattern tuples, in insertion order. */
    function Keys(): seq<seq<Pattern>>
      reads this
    {
      KeysOf(registry)
    }

    /** The registered implementations, in insertion order. */
    function Impls(): seq<ImplId>
      reads this
    {
      ImplsOf(registry)
    }

    /** The `ArgMatcher` objects of the registry. */
    ghost function Matchers(): set<ArgMatcher>
      reads this
    {
      set c | c in registry :: c.matcher
    }

    /** `__call__(*args)`: tries the clauses in insertion order and selects
        the first whose matcher accepts `args`; raises `BadMatch` carrying
        `args` when none does. Each try resets and refills that matcher's
        bindings. */
    method Call(args: seq<Value>) returns (r: Outcome)
      modifies Matchers()
      ensures registry == old(registry)
      ensures FirstMatch(Keys(), args).Some? ==>
                var k := FirstMatch(Keys(), args).value;
                r == Called(k, Impls()[k])
      ensures FirstMatch(Keys(), args).None? ==> r == BadMatch(args)
    {
      var i := 0;
      while i < |registry|
        invariant 0 <= i <= |registry|
        invariant registry == old(registry)
        invariant forall j :: 0 <= j < i ==> !Match(registry[j].matcher.types, args)
      {
        var ok := registry[i].matcher.Matches(args);
        if ok {
          assert Keys()[i] == registry[i].matcher.types;
          return Called(i, registry[i].impl);
        }
        i := i + 1;
      }
      return BadMatch(args);
    }

    /** `register(fn, arg_type)`: the duplicate test looks up a freshly built
        `ArgMatcher`, and matcher keys compare by identity, so the test never
        finds it and `MultipleClauses` is never raised; another fresh matcher
        is then appended with its implementation, after every earlier clause. */
    method Register(impl: ImplId, types: seq<Pattern>) returns (r: Registration)
      modifies this
      ensures r == Registered
      ensures |registry| == |old(registry)| + 1
      ensures registry[..|old(registry)|] == old(registry)
      ensures registry[|old(registry)|].impl == impl
      ensures fresh(registry[|old(registry)|].matcher)
      ensures Matchers() == old(Matchers()) + {registry[|old(registry)|].matcher}
      ensures Keys() == old(Keys()) + [types]
      ensures Impls() == old(Impls()) + [impl]
    {
      var am := new ArgMatcher(types);
      if exists i :: 0 <= i < |registry| && registry[i].matcher == am {
        return MultipleClauses(impl, types);
      }
      var key := new ArgMatcher(types);
      registry := registry + [Clause(key, impl)];
      assert KeysOf(registry) == KeysOf(old(registry)) + [types];
      assert ImplsOf(registry) == ImplsOf(old(registry)) + [impl];
      return Registered;
    }
  }

  /** The decorator object `Register`: one `PatternMatcher` per function
      name, created the first time the name is declared. */
  class Register {
    var mainRegister: map<string, PatternMatcher>

    /** Different names own different registries. */
    ghost predicate Valid()
      reads this
    {
      forall n1, n2 :: n1 in mainRegister && n2 in mainRegister && n1 != n2 ==>
        mainRegister[n1] != mainRegister[n2]
    }

    constructor ()
      ensures Valid() && mainRegister == map[]
    {
      mainRegister := map[];
    }

    /** `register(*types)(function)`: looks up the registry of `name`,
        creating an empty one on first use, appends the clause to it and
        returns it. Every other name keeps its registry and its clauses. */
    method Call(name: string, impl: ImplId, types: seq<Pattern>) returns (pm: PatternMatcher)
      requires Valid()
      modifies this, if name in mainRegister then {mainRegister[name]} else {}
      ensures Valid()
      ensures mainRegister.Keys == old(mainRegister.Keys) + {name}
      ensures mainRegister[name] == pm
      ensures name in old(mainRegister) ==>
                && pm == old(mainRegister[name])
                && pm.Keys() == old(mainRegister[name].Keys()) + [types]
                && pm.Impls() == old(mainRegister[name].Impls()) + [impl]
      ensures name in old(mainRegister) ==> fresh(pm.Matchers() - old(mainRegister[name].Matchers()))
      ensures name !in old(mainRegister) ==>
                fresh(pm) && fresh(pm.Matchers()) && pm.Keys() == [types] && pm.Impls() == [impl]
      ensures forall n :: n in old(mainRegister) && n != name ==>
                mainRegister[n] == old(mainRegister[n]) && mainRegister[n].registry == old(mainRegister[n].registry)
    {
      var created := new PatternMatcher();
      if name !in mainRegister {
        mainRegister := mainRegister[name := created];
      }
      pm := mainRegister[name];
      var _ := pm.Register(impl, types);
    }
  }
}
