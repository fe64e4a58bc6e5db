/**
 Type descriptors: the leaves the sum combinator is built over, the sum
 nodes themselves, the rule objects constrained types carry and the AST
 that `to_ast` produces.
 */
module Descriptors {
  import opened Results

  /** A validation rule: an opaque predicate of the rule engine, or the
      disjunction of two rules (the engine's `|`). */
  datatype Rule =
    | Predicate(test: Value -> bool)
    | Or(left: Rule, right: Rule)

  /** Whether a value satisfies a rule; `Or` is pointwise disjunction. */
  function Holds(rule: Rule, v: Value): bool
  {
    match rule
    case Predicate(test) => test(v)
    case Or(l, r) => Holds(l, v) || Holds(r, v)
  }

  /** The introspection tree: symbols, lists and hashes, as in
      `[:sum, [left_ast, right_ast, meta]]`. */
  datatype Ast =
    | Tag(name: string)
    | Node(items: seq<Ast>)
    | Hash(entries: Meta)

  /** A descriptor that is not a sum (a nominal, constrained or other
      primitive type). Its behaviour is not part of this model, so each of
      its answers is an uninterpreted function or flag of the record.
      `attempt` is its `try` without a block; with a block a leaf yields its
      failure to the block, as every descriptor's `try` does. */
  datatype Nominal = Nominal(
    name: string,
    valid: Value -> bool,
    primitive: Value -> bool,
    attempt: Value -> Result,
    success: Value -> Result,
    failure: (Value, Option<Error>) -> Result,
    rule: Option<Rule>,
    ast: bool -> Ast,
    isDefault: bool,
    isConstrained: bool,
    isOptional: bool)

  /** A type descriptor: a leaf, a plain sum `left | right`, or a
      constrained sum (`Sum::Constrained`). Sums nest on either side. */
  datatype Descriptor =
    | Leaf(nominal: Nominal)
    | Sum(left: Descriptor, right: Descriptor, meta: Meta)
    | ConstrainedSum(left: Descriptor, right: Descriptor, meta: Meta)
  {
    /** Both sum variants answer through their two children. */
    predicate IsSum() {
      !Leaf?
    }
  }

  /** The leaves of a descriptor tree, left to right. */
  function Leaves(d: Descriptor): (ls: seq<Nominal>)
    ensures |ls| >= 1
    ensures d.IsSum() ==> |ls| >= 2
  {
    match d
    case Leaf(t) => [t]
    case Sum(l, r, _) => Leaves(l) + Leaves(r)
    case ConstrainedSum(l, r, _) => Leaves(l) + Leaves(r)
  }
}
