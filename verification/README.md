# Sum types of dry-types, modelled in Dafny

This project models the union ("sum") type combinator of dry-types,
`Dry::Types::Sum` and its subclass `Sum::Constrained`. A sum `left | right`
answers every question a type descriptor answers by asking its two
children, `left` first:

- `valid?` and `primitive?` are the OR of the children's answers;
- `try` tries `left`, then `right`, and hands the right failure to the caller's block;
- `call` returns `try(input).input`;
- `success` and `failure` pick the side they delegate to;
- `to_ast` builds `[:sum, [left_ast, right_ast, meta]]`;
- `name` joins the two child names with `" | "`.

The constrained variant ORs the children's rules. Its `call` raises
`ConstraintError` where the plain sum returns the input unchanged.

Layout:

- `results.dfy` (module `Results`): runtime values with a distinguished
  `Nil`, the `Success`/`Failure` result, the exceptions, and `Completion`
  (returned or raised). It also holds the block protocol `Yield` and
  reading `.error` off a result (`ErrorOf`).
- `descriptors.dfy` (module `Descriptors`): the descriptor tree. Its
  variants are `Leaf(Nominal)`, `Sum(left, right, meta)` and
  `ConstrainedSum(left, right, meta)`. A `Nominal` stands for every type
  that is not a sum. Each of its answers (`valid`, `primitive`, `try`,
  `success`, `failure`, `rule`, `ast`, flags) is a field holding an
  uninterpreted function. The module also holds rules (`Predicate` and
  `Or`), the AST, and `Leaves`, the leaves of a tree from left to right.
- `sum.dfy` (module `Sums`): the operations of `lib/dry/types/sum.rb`.
  `Try` is written in the source's continuation-passing form, with the
  block as an optional function, so that nesting composes as it does in
  Ruby.
- `sum_laws.dfy` (module `SumLaws`): each operation is checked against a
  reference stated over the tree's leaves, by structural induction:
  - the name is the `" | "`-join of all leaf names;
  - `valid?` holds when some leaf is valid;
  - `try` yields the first leaf success, or else the last leaf's failure;
  - `success` is the success of the first valid leaf.

  The module also covers the constrained `call`, `failure`, the metadata
  flag of `to_ast`, the OR-composed rule and the optional branch of
  `constrained`.
- `sum_examples.dfy` (module `SumExamples`): concrete strict leaf types
  (Integer, String, Nil) and small sums built from them.

A leaf's `try` and its `valid?` are not assumed to agree. Laws that need
them to agree take the predicate `Coherent` as an explicit precondition.

Modelling notes:

- The constrained `call` raises when `try` fails on both sides. Whether
  that is the same as `valid?` being false depends on the leaves; with
  coherent leaves it is (`ConstrainedCallRaisesIffInvalid`).
- `failure` passes the chosen side the error of that side's own `try`.
  When that `try` succeeds, reading the error raises `NoMethodError`.
- On an optional sum, `constrained` constrains `right` whichever side
  accepts `nil` (see Findings). `right.constrained` is dispatched as in
  Ruby: on a sum it runs the sum's own `constrained` again, so the model
  recurses there. The parameter standing for the inherited `constrained`
  is applied only to leaves and to sums that are not optional.

## Model

| member | source | states |
|---|---|---|
| Sums.TryIsAttemptThenYield | lib/dry/types/sum.rb:76-86 | the nested-block `try` returns a success unchanged and passes a failure to the block, or returns it when there is no block |
| SumLaws.AttemptIsFirstSuccessOrLastFailure | lib/dry/types/sum.rb:76-86 | however sums nest, `try` yields the first leaf success from the left, or else the last leaf's failure |
| SumLaws.TryLeftPriority | lib/dry/types/sum.rb:76-77 | if `left.try` succeeds, its result is returned whatever `right` and the block are |
| SumLaws.TryRightFallback | lib/dry/types/sum.rb:77-78 | if left fails and right succeeds, right's success is returned and the block is not called |
| SumLaws.TryBothFailYieldsRightFailure | lib/dry/types/sum.rb:78-84 | if both fail, left's failure is dropped: right's failure is returned, or the block's verdict on it |
| Sums.Call | lib/dry/types/sum.rb:71-73 | a plain sum returns the `.input` of `try`; a constrained sum returns it on success and raises `ConstraintError(failure, input)` otherwise |
| SumLaws.PlainCallNeverRaises | lib/dry/types/sum.rb:71-73 | a plain sum's `call` never raises; on failure it returns the input that `try` echoes |
| SumLaws.ConstrainedCallAgreesWithPlainCall | lib/dry/types/sum.rb:32-36 | the constrained `call` raises exactly when `try` fails on both sides, with right's failure and the input; otherwise it equals the plain `call` |
| SumLaws.AttemptSucceedsIffValid | lib/dry/types/sum.rb:114-116 | if every leaf's `try` agrees with its `valid?`, the sum's `try` succeeds exactly when `valid?` holds |
| SumLaws.ConstrainedCallRaisesIffInvalid | lib/dry/types/sum.rb:32-36 | with coherent leaves, the constrained `call` raises exactly on values that are not `valid?` |
| SumLaws.NameJoinsLeafNames | lib/dry/types/sum.rb:50-52 | a nested sum's name is the `" \| "`-joined names of all its leaves, from left to right |
| SumLaws.ValidIffSomeLeafValid | lib/dry/types/sum.rb:114-116 | `valid?` holds exactly when some leaf of the tree is valid (both directions) |
| SumLaws.PrimitiveIffSomeLeafPrimitive | lib/dry/types/sum.rb:108-110 | `primitive?` holds exactly when some leaf accepts the raw value (both directions) |
| SumLaws.OptionalIffSomeLeafAcceptsNil | lib/dry/types/sum.rb:65-67 | a sum is `optional?` exactly when some leaf is `primitive?` for `nil`; the children's own `optional?` is never asked |
| SumLaws.SuccessRaisesIffInvalid | lib/dry/types/sum.rb:88-96 | `success` raises `ArgumentError(input)` exactly when the sum is not `valid?` for the input |
| SumLaws.SuccessIsFirstValidLeaf | lib/dry/types/sum.rb:88-96 | `success` is the success of the first valid leaf: a valid left side wins even when the right side is valid too |
| SumLaws.FailureIgnoresError | lib/dry/types/sum.rb:98 | the error argument of `failure` has no effect |
| SumLaws.FailureOfInvalidIsLeftmostLeaf | lib/dry/types/sum.rb:98-104 | with coherent leaves, `failure` on a rejected input is built by the leftmost leaf, from the error of that leaf's own `try` |
| SumLaws.FailureRaisesWhenRightSucceeds | lib/dry/types/sum.rb:101-102 | when left is valid and right's `try` succeeds, `failure` raises `NoMethodError` reading `.error` off the success |
| SumLaws.AstWithoutMetaIsMetaFree | lib/dry/types/sum.rb:122-124 | with `meta: false`, and leaves that honour the flag, no hash in the AST has any entries, at any depth |
| SumLaws.AstFlagOnlyDropsMeta | lib/dry/types/sum.rb:122-124 | the AST without metadata is the AST with metadata with every hash emptied, so the flag changes nothing else |
| SumLaws.RuleDefinedIffRuleTree | lib/dry/types/sum.rb:20-22 | `rule` exists exactly on trees of constrained sums whose leaves all have rules |
| SumLaws.RuleHoldsIffSomeLeafRuleHolds | lib/dry/types/sum.rb:20-22 | the OR-composed rule holds exactly on values that some leaf's rule accepts (both directions) |
| SumLaws.ConstrainAsWrittenKeepsNilBranch | lib/dry/types/sum.rb:129-135 | a non-optional sum takes the inherited path; an optional sum stays optional and accepts exactly what the nil type accepts or what the inherited `constrained` makes of the first leaf or non-optional sum down its chain of `right` sides (`right.constrained` recursing while `right` is an optional sum), whatever any `left` along the chain accepted |
| SumLaws.ConstrainKeepsNilBranch | lib/dry/types/sum.rb:129-135 | for the corrected definition `Sums.Constrain`: a non-optional sum takes the inherited path; an optional sum stays optional and accepts exactly what the nil type accepts or what the inherited `constrained` makes of the first leaf or non-optional sum down its chain of value sides |
| SumLaws.ConstrainKeepsEveryValue | lib/dry/types/sum.rb:129-135 | for the corrected definition, with an inherited `constrained` that changes nothing: every accepted value stays accepted when every replaced nil side accepts nothing beyond the nil type, and nothing new is accepted when the nil type accepts nothing beyond the outermost nil side; the constrained side is the one that does not accept `nil` |
| SumExamples.ConstrainAsWrittenAgreesWhenNilIsLeft | lib/dry/types/sum.rb:129-135 | when `nil` is accepted on the left at every optional level (the form `optional` builds, applied any number of times), the source's choice of side is the value side |
| SumExamples.ConstrainAsWrittenLosesValueSide | lib/dry/types/sum.rb:130-131 | `Integer \| Nil` is optional, so the source constrains the nil side: 5 is valid before and rejected after |
| SumExamples.ConstrainReplacesWholeNilSide | lib/dry/types/sum.rb:129-135 | in `(Nil \| String) \| Integer` the whole nil side is replaced by the nil type, so "x" is lost under either definition while 5 is kept |
| SumExamples.ConstrainAsWrittenLosesNestedSides | lib/dry/types/sum.rb:129-135 | in `Integer \| (String \| Nil)` the source's `right.constrained` runs the optional branch again and ends at the Nil leaf, so both 5 and "x" are rejected after; the corrected definition keeps 5 |
| SumExamples.IntegerOrString | lib/dry/types/sum.rb:114-116 | `Integer \| String` accepts 5 and "x", rejects 3.14, is not optional, and is named "Integer \| String" |
| SumExamples.IntegerOrStringCall | lib/dry/types/sum.rb:32-36 | the constrained `Integer \| String` returns 5 and raises on 3.14 with the String failure; the plain sum returns 3.14 |

## Left out

- Options: the `Options` mixin and the `options` attribute are not modelled. Only `meta` is kept. Options take part in structural equality and construction only.
- Structural equality, `freeze` and `initialize`: a Dafny datatype is immutable and compared by its fields, so `Dry::Equalizer` and freezing need no model. The construction-time check that both children are types belongs to the type-construction layer and is not modelled.
- `Printable`/`inspect` and the text of the `ArgumentError` message are left out, because they are only string formatting. `ArgumentError` carries just the input.
- The aliases `[]` (for `call`) and `===` (for `valid?`) are the same members as `Call` and `Valid`.
- Leaf types: coercion, and the behaviour of nominal and constrained leaf types, are uninterpreted fields of `Nominal`. A leaf's `try` is assumed to follow the same block protocol as the sum's `try`: it yields its failure to the block. Nothing else about leaves is assumed, except under the explicit `Coherent`, `HonoursMetaFlag` and `LeavesStripMeta` preconditions.
- The rule engine: the internals of `Dry::Logic` are not modelled. A rule is an opaque predicate or the `Or` of two rules, and `|` is pointwise disjunction. Where Ruby would raise `NoMethodError` because a child has no `rule`, `RuleOf` returns `None`.
- `Builder#constrained` (`super`), a leaf's own `constrained` and `Builder#optional` are defined outside this file. `ConstrainAsWritten` and `Constrain` take the inherited `constrained` and the nil type as parameters. That parameter stands for a leaf's own `constrained` and for `super`. It does not stand for `x.constrained` on a sum, which the model dispatches to the sum's own branch. So `ConstrainsNothing` (an inherited `constrained` that changes nothing) never holds for `constrained` on an optional sum: that is always rebuilt. The optional wrapper is built as a plain `Sum(nil, x)`. Whether the builder makes that sum constrained does not affect `valid?` or `optional?`, the only properties stated about it.
- `default?` and `constrained?` of a sum are constants (`Sums.IsDefault`, `Sums.IsConstrained`); no law is stated about them beyond their definitions.
- SumLaws.SuccessRaisesIffInvalid: a leaf's own `success` never raises in the model, so the law states that raising happens exactly for a sum that is not `valid?`, not for every descriptor.

## Findings

| source | as written | input that shows it | evidently intended | confidence | as-written member | corrected member |
|---|---|---|---|---|---|---|
| lib/dry/types/sum.rb:130-131 | an optional sum always constrains `right` and re-wraps it as optional | `(Integer \| Nil).constrained(...)`: the nil type is constrained, and 5, valid before, is rejected after | constrain the side that does not accept `nil`, wherever it is | medium; not executed | SumExamples.ConstrainAsWrittenLosesValueSide | SumLaws.ConstrainKeepsEveryValue |
| lib/dry/types/sum.rb:129-131 | when `right` is itself an optional sum, `right.constrained` runs this branch again, so every `left` side down the chain of `right` sides is dropped | `(Integer \| (String \| Nil)).constrained(...)`: the branch ends at Nil, and 5 and "x", valid before, are both rejected after | constrain the value side, recursing only while that side is optional | medium; not executed | SumExamples.ConstrainAsWrittenLosesNestedSides | SumLaws.ConstrainKeepsEveryValue |

The corrected definition is `Sums.Constrain`. The as-written one is
`Sums.ConstrainAsWritten`. The two agree when `nil` is accepted on the
left at every optional level
(`SumExamples.ConstrainAsWrittenAgreesWhenNilIsLeft`), which is the form
`optional` builds.

Both definitions put the bare nil type where the nil side was. When the
nil side accepts more than `nil`, as in `(Nil | String) | Integer`, those
other values are lost (`SumExamples.ConstrainReplacesWholeNilSide`). The
corrected definition does not repair this; `ConstrainKeepsEveryValue`
states the condition under which nothing is lost.
