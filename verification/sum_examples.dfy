/**
 Concrete strict leaf types and the behaviour of small sums built from
 them: the integer-or-string union, its constrained form, and the optional
 branch of `constrained` on a sum whose nil alternative is on the right or
 nested inside a side.
 */
module SumExamples {
  import opened Results
  import opened Descriptors
  import opened Sums
  import opened SumLaws

  /** A strict leaf: `valid?`, `primitive?`, `try` and its rule all accept
      exactly the values `accepts` accepts, and nothing is coerced. */
  function Strict(name: string, accepts: Value -> bool): (t: Nominal)
    ensures forall v :: t.valid(v) <==> t.attempt(v).Success?
    ensures forall v :: t.attempt(v).input == v
  {
    Nominal(
      name,
      accepts,
      accepts,
      (v: Value) => if accepts(v) then Success(v) else Failure(v, Error(name)),
      (v: Value) => Success(v),
      (v: Value, e: Option<Error>) => Failure(v, if e.Some? then e.value else Error(name)),
      Some(Predicate(accepts)),
      (withMeta: bool) => Tag(name),
      false,
      true,
      false)
  }

  const IntegerType: Nominal := Strict("Integer", (v: Value) => v.Int?)
  const StringType: Nominal := Strict("String", (v: Value) => v.Str?)
  const NilType: Nominal := Strict("Nil", (v: Value) => v.Nil?)

  /** Options that constrain nothing. */
  const Unconstrained: (Descriptor, Meta) -> Descriptor := (x: Descriptor, o: Meta) => x

  /** `Integer | String` accepts 5 and "x", rejects 3.14, is not optional,
      and is named after both sides. */
  lemma IntegerOrString()
    ensures var d := Sum(Leaf(IntegerType), Leaf(StringType), map[]);
      && Valid(d, Int(5)) && Valid(d, Str("x")) && !Valid(d, Dec(3.14))
      && !IsOptional(d)
      && Name(d) == "Integer | String"
  {
  }

  /** The constrained `Integer | String` returns 5, and on 3.14 raises
      `ConstraintError` carrying the String side's failure; the plain sum
      hands 3.14 back. */
  lemma IntegerOrStringCall()
    ensures Call(ConstrainedSum(Leaf(IntegerType), Leaf(StringType), map[]), Int(5)) == Returned(Int(5))
    ensures Call(ConstrainedSum(Leaf(IntegerType), Leaf(StringType), map[]), Dec(3.14)) ==
      Raised(ConstraintError(Failure(Dec(3.14), Error("String")), Dec(3.14)))
    ensures Call(Sum(Leaf(IntegerType), Leaf(StringType), map[]), Dec(3.14)) == Returned(Dec(3.14))
  {
  }

  /** With the nil alternative on the left at every optional level (the
      form `optional` builds), the source's choice of side and the
      value-side choice agree. */
  lemma {:induction false} ConstrainAsWrittenAgreesWhenNilIsLeft(d: Descriptor, options: Meta,
                                                                inherited: (Descriptor, Meta) -> Descriptor,
                                                                nilType: Nominal)
    requires NilOnLeft(d)
    ensures ConstrainAsWritten(d, options, inherited, nilType) == Constrain(d, options, inherited, nilType)
    decreases d
  {
    if d.IsSum() && IsOptional(d) {
      ConstrainAsWrittenAgreesWhenNilIsLeft(d.right, options, inherited, nilType);
    }
  }

  /** `Integer | Nil` is optional, so the source constrains its right side,
      the nil type, and the integer alternative is lost: 5 is accepted
      before and rejected after, even with options that constrain nothing.
      Constraining the value side keeps 5. */
  lemma ConstrainAsWrittenLosesValueSide()
    ensures var d := Sum(Leaf(IntegerType), Leaf(NilType), map[]);
      && IsOptional(d)
      && Valid(d, Int(5))
      && !Valid(ConstrainAsWritten(d, map[], Unconstrained, NilType), Int(5))
      && Valid(Constrain(d, map[], Unconstrained, NilType), Int(5))
  {
  }

  /** In `(Nil | String) | Integer` the nil alternative sits inside a side
      that also accepts strings. Either definition puts the bare nil type in
      that side's place, so "x" is accepted before and rejected after; the
      integer side is kept by both. */
  lemma ConstrainReplacesWholeNilSide()
    ensures var d := Sum(Sum(Leaf(NilType), Leaf(StringType), map[]), Leaf(IntegerType), map[]);
      && IsOptional(d)
      && Valid(d, Str("x"))
      && !Valid(Constrain(d, map[], Unconstrained, NilType), Str("x"))
      && Valid(Constrain(d, map[], Unconstrained, NilType), Int(5))
      && !Valid(ConstrainAsWritten(d, map[], Unconstrained, NilType), Str("x"))
      && Valid(ConstrainAsWritten(d, map[], Unconstrained, NilType), Int(5))
  {
  }

  /** In `Integer | (String | Nil)` the right side is an optional sum, so
      the source's `right.constrained` runs the optional branch again and
      ends at the Nil leaf: both 5 and "x" are lost. The corrected
      definition keeps 5. */
  lemma ConstrainAsWrittenLosesNestedSides()
    ensures var d := Sum(Leaf(IntegerType), Sum(Leaf(StringType), Leaf(NilType), map[]), map[]);
      && IsOptional(d)
      && Valid(d, Int(5)) && Valid(d, Str("x"))
      && !Valid(ConstrainAsWritten(d, map[], Unconstrained, NilType), Int(5))
      && !Valid(ConstrainAsWritten(d, map[], Unconstrained, NilType), Str("x"))
      && Valid(Constrain(d, map[], Unconstrained, NilType), Int(5))
  {
  }
}
