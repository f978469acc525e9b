/**
 * Argument values and the pattern kinds of the dispatch engine in src/fun.py.
 *
 * The engine compares a pattern `t` with an argument `o` by evaluating
 * Python's `t == o`, which runs the `__eq__` of the pattern's class; a
 * pattern that is not one of the engine's classes is a literal compared with
 * the value's own `==`.
 */
module Patterns {

  /** The argument values admitted by the model: Python ints and strings.
      Python's `==` on them holds exactly when both are the same variant with
      equal payloads, which is Dafny's equality on this datatype. */
  datatype Value = Int(i: int) | Str(s: string)

  /** One position of a clause's pattern tuple.
      A `Variable` object compares by object identity, so it is modelled by a
      unique `id` standing for that identity; two Variables created with the
      same name are two different ids. */
  datatype Pattern =
    | Variable(id: nat)
    | Any
    | PosInt
    | Literal(value: Value)

  /** `t == o` for a pattern `t` and an argument value `o`: `Variable.__eq__`
      is `self is other`, which never holds for an argument value;
      `Any.__eq__` always holds; `PosInt.__eq__` holds for ints above zero;
      a literal holds when it equals the value. */
  predicate Equals(t: Pattern, o: Value)
  {
    match t
    case Variable(_) => false
    case Any => true
    case PosInt => o.Int? && o.i > 0
    case Literal(v) => v == o
  }

  /** The shared wildcard object `_`. */
  const Wildcard: Pattern := Any
}
