/**
 Laws of the sum combinator. Each operation of a sum tree is related to an
 independent reference stated over the tree's leaves in left-to-right
 order: `name` joins every leaf name, `valid?` asks whether some leaf is
 valid, `try` is the first leaf success or else the last leaf failure,
 `success` is the success of the first valid leaf. The remaining laws
 cover the constrained `call`, `failure`, the metadata flag of `to_ast`,
 the composed `rule` and the optional branch of `constrained`.
 */
module SumLaws {
  import opened Results
  import opened Descriptors
  import opened Sums

  /* ---------------------------------------------------------------- name */

  /** Leaf names joined by " | ", left to right. */
  function JoinNames(ls: seq<Nominal>): string
    requires |ls| >= 1
  {
    if |ls| == 1 then ls[0].name else ls[0].name + " | " + JoinNames(ls[1..])
  }

  lemma {:induction false} JoinNamesAppend(a: seq<Nominal>, b: seq<Nominal>)
    requires |a| >= 1 && |b| >= 1
    ensures JoinNames(a + b) == JoinNames(a) + " | " + JoinNames(b)
  {
    if |a| == 1 {
      assert (a + b)[1..] == b;
    } else {
      assert (a + b)[1..] == a[1..] + b;
      JoinNamesAppend(a[1..], b);
    }
  }

  /** The name of a nested sum is the " | "-joined names of all its leaves. */
  lemma {:induction false} NameJoinsLeafNames(d: Descriptor)
    ensures Name(d) == JoinNames(Leaves(d))
  {
    match d
    case Leaf(_) =>
    case _ =>
      NameJoinsLeafNames(d.left);
      NameJoinsLeafNames(d.right);
      JoinNamesAppend(Leaves(d.left), Leaves(d.right));
  }

  /* ------------------------------------------------- valid? / primitive? */

  /** Some leaf of the list satisfies `p`. */
  ghost predicate SomeLeaf(ls: seq<Nominal>, p: Nominal -> bool)
  {
    exists i :: 0 <= i < |ls| && p(ls[i])
  }

  lemma SomeLeafAppend(a: seq<Nominal>, b: seq<Nominal>, p: Nominal -> bool)
    ensures SomeLeaf(a + b, p) <==> SomeLeaf(a, p) || SomeLeaf(b, p)
  {
    if SomeLeaf(a, p) {
      var i :| 0 <= i < |a| && p(a[i]);
      assert (a + b)[i] == a[i];
    }
    if SomeLeaf(b, p) {
      var j :| 0 <= j < |b| && p(b[j]);
      assert (a + b)[|a| + j] == b[j];
    }
    if SomeLeaf(a + b, p) {
      var k :| 0 <= k < |a + b| && p((a + b)[k]);
      if k < |a| {
        assert (a + b)[k] == a[k];
      } else {
        assert (a + b)[k] == b[k - |a|];
      }
    }
  }

  lemma SomeLeafSingleton(t: Nominal, p: Nominal -> bool)
    ensures SomeLeaf([t], p) <==> p(t)
  {
    assert [t][0] == t;
  }

  /** `valid?` holds exactly when some leaf is valid for the value. */
  lemma {:induction false} ValidIffSomeLeafValid(d: Descriptor, v: Value)
    ensures Valid(d, v) <==> SomeLeaf(Leaves(d), (t: Nominal) => t.valid(v))
  {
    var p := (t: Nominal) => t.valid(v);
    match d
    case Leaf(t) =>
      SomeLeafSingleton(t, p);
    case _ =>
      ValidIffSomeLeafValid(d.left, v);
      ValidIffSomeLeafValid(d.right, v);
      SomeLeafAppend(Leaves(d.left), Leaves(d.right), p);
  }

  /** `primitive?` holds exactly when some leaf accepts the raw value. */
  lemma {:induction false} PrimitiveIffSomeLeafPrimitive(d: Descriptor, v: Value)
    ensures Primitive(d, v) <==> SomeLeaf(Leaves(d), (t: Nominal) => t.primitive(v))
  {
    var p := (t: Nominal) => t.primitive(v);
    match d
    case Leaf(t) =>
      SomeLeafSingleton(t, p);
    case _ =>
      PrimitiveIffSomeLeafPrimitive(d.left, v);
      PrimitiveIffSomeLeafPrimitive(d.right, v);
      SomeLeafAppend(Leaves(d.left), Leaves(d.right), p);
  }

  /** A sum is `optional?` exactly when one of its leaves accepts the
      primitive `nil`; the children's own `optional?` is never asked. */
  lemma OptionalIffSomeLeafAcceptsNil(d: Descriptor)
    requires d.IsSum()
    ensures IsOptional(d) <==> SomeLeaf(Leaves(d), (t: Nominal) => t.primitive(Nil))
  {
    PrimitiveIffSomeLeafPrimitive(d, Nil);
  }

  /* ------------------------------------------------------------------ try */

  /** The reference for `try` without a block: the first leaf result that
      is a success, or else the failure of the last leaf. */
  function TryLeaves(ls: seq<Nominal>, v: Value): Result
    requires |ls| >= 1
  {
    if |ls| == 1 || ls[0].attempt(v).Success? then ls[0].attempt(v) else TryLeaves(ls[1..], v)
  }

  lemma {:induction false} TryLeavesAppend(a: seq<Nominal>, b: seq<Nominal>, v: Value)
    requires |a| >= 1 && |b| >= 1
    ensures TryLeaves(a + b, v) ==
      if TryLeaves(a, v).Success? then TryLeaves(a, v) else TryLeaves(b, v)
  {
    assert (a + b)[0] == a[0];
    if |a| == 1 {
      assert (a + b)[1..] == b;
    } else {
      assert (a + b)[1..] == a[1..] + b;
      TryLeavesAppend(a[1..], b, v);
    }
  }

  /** However the sums nest, `try` without a block yields the first leaf
      success, and when every leaf fails, the failure of the last leaf. */
  lemma {:induction false} AttemptIsFirstSuccessOrLastFailure(d: Descriptor, v: Value)
    ensures Attempt(d, v) == TryLeaves(Leaves(d), v)
  {
    match d
    case Leaf(_) =>
    case _ =>
      AttemptIsFirstSuccessOrLastFailure(d.left, v);
      AttemptIsFirstSuccessOrLastFailure(d.right, v);
      TryLeavesAppend(Leaves(d.left), Leaves(d.right), v);
  }

  /** Left priority: when `left.try` succeeds, its success is what the sum
      returns, whatever the right side and the block are. */
  lemma TryLeftPriority(d: Descriptor, v: Value, block: Option<Handler>)
    requires d.IsSum()
    requires Attempt(d.left, v).Success?
    ensures Try(d, v, block) == Returned(Attempt(d.left, v))
  {
    TryIsAttemptThenYield(d, v, block);
  }

  /** When `left.try` fails and `right.try` succeeds, the right success is
      returned and the block is not called. */
  lemma TryRightFallback(d: Descriptor, v: Value, block: Option<Handler>)
    requires d.IsSum()
    requires Attempt(d.left, v).Failure? && Attempt(d.right, v).Success?
    ensures Try(d, v, block) == Returned(Attempt(d.right, v))
  {
    TryIsAttemptThenYield(d, v, block);
  }

  /** When both sides fail, the left failure is discarded: the right
      failure is returned as it is, or handed to the block when one is given. */
  lemma TryBothFailYieldsRightFailure(d: Descriptor, v: Value, block: Option<Handler>)
    requires d.IsSum()
    requires Attempt(d.left, v).Failure? && Attempt(d.right, v).Failure?
    ensures block.None? ==> Try(d, v, block) == Returned(Attempt(d.right, v))
    ensures block.Some? ==> Try(d, v, block) == block.value(Attempt(d.right, v))
  {
  }

  /* ----------------------------------------------------------------- call */

  /** Every leaf's `try` succeeds exactly on the values its `valid?`
      accepts. The model does not assume this; laws that need it say so. */
  predicate Coherent(d: Descriptor, v: Value)
  {
    match d
    case Leaf(t) => t.valid(v) <==> t.attempt(v).Success?
    case _ => Coherent(d.left, v) && Coherent(d.right, v)
  }

  /** With coherent leaves, `try` succeeds exactly when `valid?` holds. */
  lemma {:induction false} AttemptSucceedsIffValid(d: Descriptor, v: Value)
    requires Coherent(d, v)
    ensures Attempt(d, v).Success? <==> Valid(d, v)
  {
    match d
    case Leaf(_) =>
    case _ =>
      AttemptSucceedsIffValid(d.left, v);
      AttemptSucceedsIffValid(d.right, v);
  }

  /** A plain sum's `call` never raises; on failure it hands back the input
      `try` echoes. */
  lemma PlainCallNeverRaises(l: Descriptor, r: Descriptor, meta: Meta, v: Value)
    ensures Call(Sum(l, r, meta), v).Returned?
    ensures Attempt(Sum(l, r, meta), v).Failure? ==>
      Call(Sum(l, r, meta), v).value == Attempt(Sum(l, r, meta), v).input
  {
  }

  /** A constrained sum's `call` raises `ConstraintError(result, input)`
      exactly when `try` fails on both sides, and otherwise returns what
      the plain sum over the same children returns. */
  lemma ConstrainedCallAgreesWithPlainCall(l: Descriptor, r: Descriptor, meta: Meta, v: Value)
    ensures Call(ConstrainedSum(l, r, meta), v).Raised? <==> Attempt(Sum(l, r, meta), v).Failure?
    ensures Call(ConstrainedSum(l, r, meta), v).Raised? ==>
      Call(ConstrainedSum(l, r, meta), v).exception == ConstraintError(Attempt(r, v), v)
    ensures Call(ConstrainedSum(l, r, meta), v).Returned? ==>
      Call(ConstrainedSum(l, r, meta), v) == Call(Sum(l, r, meta), v)
  {
  }

  /** With coherent leaves, a constrained sum's `call` raises exactly on
      the values that are not `valid?`. */
  lemma ConstrainedCallRaisesIffInvalid(d: Descriptor, v: Value)
    requires d.ConstrainedSum?
    requires Coherent(d, v)
    ensures Call(d, v).Raised? <==> !Valid(d, v)
  {
    AttemptSucceedsIffValid(d, v);
  }

  /* -------------------------------------------------------------- success */

  /** The reference for `success`: the success of the first valid leaf,
      `ArgumentError` when no leaf is valid. */
  function SucceedLeaves(ls: seq<Nominal>, v: Value): Completion<Result>
  {
    if |ls| == 0 then Raised(ArgumentError(v))
    else if ls[0].valid(v) then Returned(ls[0].success(v))
    else SucceedLeaves(ls[1..], v)
  }

  lemma {:induction false} SucceedLeavesAppend(a: seq<Nominal>, b: seq<Nominal>, v: Value)
    ensures SucceedLeaves(a + b, v) ==
      if SucceedLeaves(a, v).Returned? then SucceedLeaves(a, v) else SucceedLeaves(b, v)
  {
    if |a| == 0 {
      assert a + b == b;
    } else {
      assert (a + b)[0] == a[0];
      assert (a + b)[1..] == a[1..] + b;
      SucceedLeavesAppend(a[1..], b, v);
    }
  }

  /** `success` raises, and raises `ArgumentError` for the input, exactly
      when the descriptor is a sum and `valid?` is false (a leaf's own
      `success` is not part of this model and never raises). */
  lemma {:induction false} SuccessRaisesIffInvalid(d: Descriptor, v: Value)
    ensures SuccessFor(d, v).Raised? <==> d.IsSum() && !Valid(d, v)
    ensures SuccessFor(d, v).Raised? ==> SuccessFor(d, v).exception == ArgumentError(v)
  {
    match d
    case Leaf(_) =>
    case _ =>
      SuccessRaisesIffInvalid(d.left, v);
      SuccessRaisesIffInvalid(d.right, v);
  }

  /** `success` of a sum is the success of the first valid leaf, left to
      right: a valid left side wins even when the right side is valid too. */
  lemma {:induction false} SuccessIsFirstValidLeaf(d: Descriptor, v: Value)
    ensures d.IsSum() || Valid(d, v) ==> SuccessFor(d, v) == SucceedLeaves(Leaves(d), v)
    ensures SucceedLeaves(Leaves(d), v).Raised? <==> !Valid(d, v)
  {
    match d
    case Leaf(t) =>
      assert Leaves(d)[1..] == [];
    case _ =>
      SuccessIsFirstValidLeaf(d.left, v);
      SuccessIsFirstValidLeaf(d.right, v);
      SucceedLeavesAppend(Leaves(d.left), Leaves(d.right), v);
  }

  /* -------------------------------------------------------------- failure */

  /** `failure` ignores the error it is given. */
  lemma FailureIgnoresError(d: Descriptor, v: Value, e1: Option<Error>, e2: Option<Error>)
    requires d.IsSum()
    ensures FailureFor(d, v, e1) == FailureFor(d, v, e2)
  {
  }

  /** With coherent leaves, `failure` on an input the sum rejects is built
      by the leftmost leaf, from the error of that leaf's own `try`. */
  lemma {:induction false} FailureOfInvalidIsLeftmostLeaf(d: Descriptor, v: Value, e: Option<Error>)
    requires d.IsSum()
    requires Coherent(d, v) && !Valid(d, v)
    ensures Leaves(d)[0].attempt(v).Failure?
    ensures FailureFor(d, v, e) ==
      Returned(Leaves(d)[0].failure(v, Some(Leaves(d)[0].attempt(v).error)))
  {
    var l := d.left;
    assert Leaves(d)[0] == Leaves(l)[0];
    AttemptSucceedsIffValid(l, v);
    TryIsAttemptThenYield(l, v, None);
    match l
    case Leaf(_) =>
    case _ =>
      FailureOfInvalidIsLeftmostLeaf(l, v, Some(Attempt(l, v).error));
  }

  /** `failure` on an input the left side accepts asks the right side for
      the error of its `try`; when that `try` succeeds, reading the error
      raises `NoMethodError`. */
  lemma FailureRaisesWhenRightSucceeds(d: Descriptor, v: Value, e: Option<Error>)
    requires d.IsSum()
    requires Valid(d.left, v) && Attempt(d.right, v).Success?
    ensures FailureFor(d, v, e) == Raised(NoMethodError(Attempt(d.right, v)))
  {
    TryIsAttemptThenYield(d.right, v, None);
  }

  /* --------------------------------------------------------------- to_ast */

  /** An AST in which every hash is empty. */
  predicate MetaFree(a: Ast)
  {
    match a
    case Tag(_) => true
    case Hash(entries) => entries == map[]
    case Node(items) => forall i :: 0 <= i < |items| ==> MetaFree(items[i])
  }

  /** Every leaf of the tree leaves metadata out of its AST when asked to. */
  predicate HonoursMetaFlag(d: Descriptor)
  {
    match d
    case Leaf(t) => MetaFree(t.ast(false))
    case _ => HonoursMetaFlag(d.left) && HonoursMetaFlag(d.right)
  }

  /** With `meta: false`, and leaves that honour the flag, the AST carries
      no metadata at any depth. */
  lemma {:induction false} AstWithoutMetaIsMetaFree(d: Descriptor)
    requires HonoursMetaFlag(d)
    ensures MetaFree(ToAst(d, false))
  {
    match d
    case Leaf(_) =>
    case _ =>
      AstWithoutMetaIsMetaFree(d.left);
      AstWithoutMetaIsMetaFree(d.right);
      var inner := [ToAst(d.left, false), ToAst(d.right, false), Hash(map[])];
      assert MetaFree(Node(inner));
  }

  /** The AST with every hash emptied. */
  function StripMeta(a: Ast): Ast
  {
    match a
    case Tag(_) => a
    case Hash(_) => Hash(map[])
    case Node(items) => Node(seq(|items|, i requires 0 <= i < |items| => StripMeta(items[i])))
  }

  /** Every leaf's AST without metadata is its AST with the metadata emptied. */
  predicate LeavesStripMeta(d: Descriptor)
  {
    match d
    case Leaf(t) => StripMeta(t.ast(true)) == t.ast(false)
    case _ => LeavesStripMeta(d.left) && LeavesStripMeta(d.right)
  }

  /** `meta: false` changes nothing but the metadata: the AST without it is
      the AST with it, every metadata hash emptied. */
  lemma {:induction false} AstFlagOnlyDropsMeta(d: Descriptor)
    requires LeavesStripMeta(d)
    ensures StripMeta(ToAst(d, true)) == ToAst(d, false)
  {
    match d
    case Leaf(_) =>
    case _ =>
      AstFlagOnlyDropsMeta(d.left);
      AstFlagOnlyDropsMeta(d.right);
      var withMeta := [ToAst(d.left, true), ToAst(d.right, true), Hash(d.meta)];
      assert StripMeta(Node(withMeta)).items ==
        [ToAst(d.left, false), ToAst(d.right, false), Hash(map[])];
      assert StripMeta(Node([Tag("sum"), Node(withMeta)])).items ==
        [Tag("sum"), ToAst(d, false).items[1]];
  }

  /* ----------------------------------------------------------------- rule */

  /** A tree whose every sum is constrained and whose every leaf has a rule. */
  predicate RuleTree(d: Descriptor)
  {
    match d
    case Leaf(t) => t.rule.Some?
    case Sum(_, _, _) => false
    case ConstrainedSum(l, r, _) => RuleTree(l) && RuleTree(r)
  }

  /** `rule` is defined exactly on trees of constrained sums over leaves
      that have rules. */
  lemma {:induction false} RuleDefinedIffRuleTree(d: Descriptor)
    ensures RuleOf(d).Some? <==> RuleTree(d)
  {
    match d
    case Leaf(_) =>
    case Sum(_, _, _) =>
    case ConstrainedSum(l, r, _) =>
      RuleDefinedIffRuleTree(l);
      RuleDefinedIffRuleTree(r);
  }

  /** The composed rule is satisfied exactly by the values some leaf rule
      satisfies. */
  lemma {:induction false} RuleHoldsIffSomeLeafRuleHolds(d: Descriptor, v: Value)
    requires RuleTree(d)
    ensures RuleOf(d).Some?
    ensures Holds(RuleOf(d).value, v) <==>
      SomeLeaf(Leaves(d), (t: Nominal) => t.rule.Some? && Holds(t.rule.value, v))
  {
    RuleDefinedIffRuleTree(d);
    var p := (t: Nominal) => t.rule.Some? && Holds(t.rule.value, v);
    match d
    case Leaf(t) =>
      SomeLeafSingleton(t, p);
    case ConstrainedSum(l, r, _) =>
      RuleHoldsIffSomeLeafRuleHolds(l, v);
      RuleHoldsIffSomeLeafRuleHolds(r, v);
      SomeLeafAppend(Leaves(l), Leaves(r), p);
  }

  /* ---------------------------------------------------------- constrained */

  /** Options that constrain nothing: the inherited `constrained` (a
      leaf's own, or `super` on a sum that is not optional) hands the
      descriptor back unchanged. An optional sum is still rebuilt by its
      own branch. */
  ghost predicate ConstrainsNothing(inherited: (Descriptor, Meta) -> Descriptor)
  {
    forall x, o :: inherited(x, o) == x
  }

  /** Where the as-written branch ends up: follow `right` while the sum is
      optional; the first leaf or non-optional sum reached is the one the
      inherited `constrained` is applied to. */
  function WrittenTarget(d: Descriptor): Descriptor
  {
    match d
    case Leaf(_) => d
    case _ => if IsOptional(d) then WrittenTarget(d.right) else d
  }

  /** Where the corrected branch ends up: follow the value side while the
      sum is optional. */
  function ValueTarget(d: Descriptor): Descriptor
  {
    match d
    case Leaf(_) => d
    case _ => if IsOptional(d) then ValueTarget(ValueSide(d)) else d
  }

  /** The branch as written: a sum that is not optional takes the inherited
      path. An optional sum stays optional, and accepts exactly what the
      nil type accepts or what the inherited `constrained` makes of the
      first leaf or non-optional sum down its chain of `right` sides; every
      `left` side along that chain takes no part. */
  lemma {:induction false} ConstrainAsWrittenKeepsNilBranch(d: Descriptor, options: Meta,
                                                           inherited: (Descriptor, Meta) -> Descriptor,
                                                           nilType: Nominal, v: Value)
    requires d.IsSum()
    requires nilType.primitive(Nil)
    ensures !IsOptional(d) ==> ConstrainAsWritten(d, options, inherited, nilType) == inherited(d, options)
    ensures IsOptional(d) ==> IsOptional(ConstrainAsWritten(d, options, inherited, nilType))
    ensures IsOptional(d) ==>
      (Valid(ConstrainAsWritten(d, options, inherited, nilType), v) <==>
       nilType.valid(v) || Valid(inherited(WrittenTarget(d), options), v))
    decreases d
  {
    if IsOptional(d) && d.right.IsSum() && IsOptional(d.right) {
      ConstrainAsWrittenKeepsNilBranch(d.right, options, inherited, nilType, v);
    }
  }

  /** The corrected branch: a sum that is not optional takes the inherited
      path. An optional sum stays optional, and accepts exactly what the
      nil type accepts or what the inherited `constrained` makes of the
      first leaf or non-optional sum down its chain of value sides. */
  lemma {:induction false} ConstrainKeepsNilBranch(d: Descriptor, options: Meta,
                                                  inherited: (Descriptor, Meta) -> Descriptor,
                                                  nilType: Nominal, v: Value)
    requires d.IsSum()
    requires nilType.primitive(Nil)
    ensures !IsOptional(d) ==> Constrain(d, options, inherited, nilType) == inherited(d, options)
    ensures IsOptional(d) ==> IsOptional(Constrain(d, options, inherited, nilType))
    ensures IsOptional(d) ==>
      (Valid(Constrain(d, options, inherited, nilType), v) <==>
       nilType.valid(v) || Valid(inherited(ValueTarget(d), options), v))
    decreases d
  {
    if IsOptional(d) && ValueSide(d).IsSum() && IsOptional(ValueSide(d)) {
      ConstrainKeepsNilBranch(ValueSide(d), options, inherited, nilType, v);
    }
  }

  /** Every nil side the corrected branch replaces, down the chain of value
      sides, accepts `v` only if the nil type does. */
  ghost predicate NilSidesWithin(d: Descriptor, nilType: Nominal, v: Value)
    decreases d
  {
    d.IsSum() && IsOptional(d) ==>
      (Valid(NilSide(d), v) ==> nilType.valid(v)) && NilSidesWithin(ValueSide(d), nilType, v)
  }

  /** The intended property of the corrected branch: with options that
      constrain nothing, no value is gained or lost, as long as the nil
      sides replaced by the nil type agree with it. Keeping a value needs
      every replaced nil side to accept nothing beyond the nil type;
      accepting nothing new needs only the outermost nil side to accept
      all the nil type accepts. The constrained side is the one that does
      not accept `nil`, whichever side it is. */
  lemma {:induction false} ConstrainKeepsEveryValue(d: Descriptor, options: Meta,
                                                   inherited: (Descriptor, Meta) -> Descriptor,
                                                   nilType: Nominal, v: Value)
    requires d.IsSum() && IsOptional(d)
    requires ConstrainsNothing(inherited)
    ensures NilSidesWithin(d, nilType, v) ==>
      (Valid(d, v) ==> Valid(Constrain(d, options, inherited, nilType), v))
    ensures (nilType.valid(v) ==> Valid(NilSide(d), v)) ==>
      (Valid(Constrain(d, options, inherited, nilType), v) ==> Valid(d, v))
    ensures !Primitive(d.left, Nil) ==>
      Constrain(d, options, inherited, nilType) == Sum(Leaf(nilType), inherited(d.left, options), map[])
    ensures !Primitive(d.right, Nil) ==>
      Constrain(d, options, inherited, nilType) == Sum(Leaf(nilType), inherited(d.right, options), map[])
    decreases d
  {
    var side := ValueSide(d);
    var c := Constrain(d, options, inherited, nilType);
    assert c == Sum(Leaf(nilType), Constrain(side, options, inherited, nilType), map[]);
    assert Valid(c, v) <==> nilType.valid(v) || Valid(Constrain(side, options, inherited, nilType), v);
    assert Valid(d, v) <==> Valid(NilSide(d), v) || Valid(side, v);
    if side.IsSum() && IsOptional(side) {
      ConstrainKeepsEveryValue(side, options, inherited, nilType, v);
      if !nilType.valid(v) && Valid(Constrain(side, options, inherited, nilType), v) {
        assert Valid(side, v);
      }
    } else {
      assert Constrain(side, options, inherited, nilType) == inherited(side, options) == side;
    }
  }

  /** `nil` is accepted on the left at every optional level reached
      through the value sides: the shape `optional` builds, `nil | x`,
      applied any number of times. */
  ghost predicate NilOnLeft(d: Descriptor)
    decreases d
  {
    d.IsSum() && IsOptional(d) ==> Primitive(d.left, Nil) && NilOnLeft(d.right)
  }
}
