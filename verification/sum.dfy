/**
 The sum ("union") type combinator: every question asked of `left | right`
 is answered by asking the two children, `left` first. The constrained
 variant differs in three places only: it has a `rule` (the disjunction of
 the children's rules), it reports itself constrained, and its `call`
 raises `ConstraintError` where the plain sum hands the input back.
 */
module Sums {
  import opened Results
  import opened Descriptors

  /** `name`: the children's names joined by " | ". */
  function Name(d: Descriptor): string
  {
    match d
    case Leaf(t) => t.name
    case _ => Name(d.left) + " | " + Name(d.right)
  }

  /** `default?`: a sum never carries a default of its own. */
  function IsDefault(d: Descriptor): bool
  {
    match d
    case Leaf(t) => t.isDefault
    case _ => false
  }

  /** `constrained?`: false for a plain sum, true for a constrained one. */
  function IsConstrained(d: Descriptor): bool
  {
    match d
    case Leaf(t) => t.isConstrained
    case Sum(_, _, _) => false
    case ConstrainedSum(_, _, _) => true
  }

  /** `primitive?`: short-circuit OR of the children. */
  function Primitive(d: Descriptor, v: Value): bool
  {
    match d
    case Leaf(t) => t.primitive(v)
    case _ => Primitive(d.left, v) || Primitive(d.right, v)
  }

  /** `valid?` (also `===`): short-circuit OR of the children. */
  function Valid(d: Descriptor, v: Value): bool
  {
    match d
    case Leaf(t) => t.valid(v)
    case _ => Valid(d.left, v) || Valid(d.right, v)
  }

  /** `optional?`: a sum is optional when it accepts the primitive `nil`. */
  function IsOptional(d: Descriptor): bool
  {
    match d
    case Leaf(t) => t.isOptional
    case _ => Primitive(d, Nil)
  }

  /** `try(input, &block)` in the source's continuation-passing form: try
      `left` with a block that tries `right` with a block that yields the
      failure to the caller's block, or returns it when there is none.
      A leaf returns its success, or treats its failure the same way. */
  function Try(d: Descriptor, v: Value, block: Option<Handler>): Completion<Result>
  {
    match d
    case Leaf(t) =>
      if t.attempt(v).Success? then Returned(t.attempt(v)) else Yield(block, t.attempt(v))
    case _ =>
      Try(d.left, v, Some((_: Result) =>
        Try(d.right, v, Some((failure: Result) => Yield(block, failure)))))
  }

  /** The result `try` reaches before any block is consulted, in direct
      style: the left result when it is a success, otherwise the right
      result (the left failure is dropped). */
  function Attempt(d: Descriptor, v: Value): Result
  {
    match d
    case Leaf(t) => t.attempt(v)
    case _ =>
      var a := Attempt(d.left, v);
      if a.Success? then a else Attempt(d.right, v)
  }

  /** The continuation-passing `try` ends the way the direct-style result
      says: it returns a success unchanged, and hands a failure to the
      block (or returns it when no block is given). */
  lemma {:induction false} TryIsAttemptThenYield(d: Descriptor, v: Value, block: Option<Handler>)
    ensures Try(d, v, block) ==
      if Attempt(d, v).Success? then Returned(Attempt(d, v)) else Yield(block, Attempt(d, v))
  {
    match d
    case Leaf(_) =>
    case _ =>
      var k := Some((failure: Result) => Yield(block, failure));
      TryIsAttemptThenYield(d.left, v, Some((_: Result) => Try(d.right, v, k)));
      TryIsAttemptThenYield(d.right, v, k);
  }

  /** `call` (also `[]`). A plain sum returns `try(input).input`: the
      coerced value on success, the input itself on failure. A constrained
      sum passes `try` a block that raises `ConstraintError` with the
      failure and the original input. */
  function Call(d: Descriptor, v: Value): (o: Completion<Value>)
    requires d.IsSum()
    ensures d.Sum? ==> o == Returned(Attempt(d, v).input)
    ensures d.ConstrainedSum? && Attempt(d, v).Success? ==> o == Returned(Attempt(d, v).input)
    ensures d.ConstrainedSum? && Attempt(d, v).Failure? ==>
      o == Raised(ConstraintError(Attempt(d, v), v))
  {
    var block: Option<Handler> :=
      if d.ConstrainedSum? then Some((failure: Result) => Raised(ConstraintError(failure, v))) else None;
    TryIsAttemptThenYield(d, v, block);
    match Try(d, v, block)
    case Returned(r) => Returned(r.input)
    case Raised(e) => Raised(e)
  }

  /** `success`: the success of the first side that is valid for the
      input, left first; `ArgumentError` when neither side is. */
  function SuccessFor(d: Descriptor, v: Value): Completion<Result>
  {
    match d
    case Leaf(t) => Returned(t.success(v))
    case _ =>
      if Valid(d.left, v) then SuccessFor(d.left, v)
      else if Valid(d.right, v) then SuccessFor(d.right, v)
      else Raised(ArgumentError(v))
  }

  /** `failure(input, _error)`: the error argument is ignored. The side
      asked is `left` when `left` is invalid for the input, `right`
      otherwise; it is given the error of its own `try` on the input, and
      reading that error off a success raises `NoMethodError`. */
  function FailureFor(d: Descriptor, v: Value, error: Option<Error>): Completion<Result>
  {
    match d
    case Leaf(t) => Returned(t.failure(v, error))
    case _ =>
      var side := if !Valid(d.left, v) then d.left else d.right;
      match Try(side, v, None)
      case Raised(x) => Raised(x)
      case Returned(res) =>
        match ErrorOf(res)
        case Raised(x) => Raised(x)
        case Returned(e) => FailureFor(side, v, Some(e))
  }

  /** `to_ast(meta:)`: `[:sum, [left_ast, right_ast, meta or {}]]`, with
      the flag handed down to both children. */
  function ToAst(d: Descriptor, includeMeta: bool): Ast
  {
    match d
    case Leaf(t) => t.ast(includeMeta)
    case _ =>
      Node([Tag("sum"),
            Node([ToAst(d.left, includeMeta),
                  ToAst(d.right, includeMeta),
                  Hash(if includeMeta then d.meta else map[])])])
  }

  /** `rule` of `Sum::Constrained`: `left.rule | right.rule`. A plain sum
      has no `rule`, and a constrained sum whose child has none cannot
      build one; `None` stands for the `NoMethodError` of both cases. */
  function RuleOf(d: Descriptor): Option<Rule>
  {
    match d
    case Leaf(t) => t.rule
    case Sum(_, _, _) => None
    case ConstrainedSum(l, r, _) =>
      match (RuleOf(l), RuleOf(r))
      case (Some(a), Some(b)) => Some(Or(a, b))
      case _ => None
  }

  /** `d.constrained(options)` as written, on any descriptor. A leaf, and
      a sum that is not optional, take the inherited builder path. An
      optional sum calls `constrained` on its `right` side and wraps the
      result as optional again. When `right` is itself a sum, that call is
      this same method, so an optional right side recurses. The inherited
      `constrained` stands for a leaf's own `constrained` and for `super`;
      it and the nil type that `optional` puts on the left come from the
      builder, so they are parameters here. */
  function ConstrainAsWritten(d: Descriptor, options: Meta,
                              inherited: (Descriptor, Meta) -> Descriptor,
                              nilType: Nominal): Descriptor
  {
    match d
    case Leaf(_) => inherited(d, options)
    case _ =>
      if IsOptional(d) then Sum(Leaf(nilType), ConstrainAsWritten(d.right, options, inherited, nilType), map[])
      else inherited(d, options)
  }

  /** The side of an optional sum that holds the non-nil alternative: the
      right side when the left one accepts `nil`, the left side otherwise.
      When both sides accept `nil` it is the right side, which then holds
      a `nil` alternative too. */
  function ValueSide(d: Descriptor): (s: Descriptor)
    requires d.IsSum()
    ensures s == d.left || s == d.right
  {
    if Primitive(d.left, Nil) then d.right else d.left
  }

  /** The other side: the left side when it accepts `nil`, the right side
      otherwise. */
  function NilSide(d: Descriptor): Descriptor
    requires d.IsSum()
  {
    if Primitive(d.left, Nil) then d.left else d.right
  }

  /** `d.constrained(options)` constraining the non-nil side of an optional
      sum whichever side it is on, as the optional branch evidently
      intends. The call on that side dispatches as in Ruby: a sum there
      runs this same method. */
  function Constrain(d: Descriptor, options: Meta,
                     inherited: (Descriptor, Meta) -> Descriptor,
                     nilType: Nominal): Descriptor
  {
    match d
    case Leaf(_) => inherited(d, options)
    case _ =>
      if IsOptional(d) then Sum(Leaf(nilType), Constrain(ValueSide(d), options, inherited, nilType), map[])
      else inherited(d, options)
  }
}
