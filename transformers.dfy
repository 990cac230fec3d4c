/**
  Transformers: the bidirectional value converters applied during a copy.

  `NoTransformation` is the identity transformer and the default of every
  field. Any other transformer class is user code, seen here only through its
  behaviour: whether it has a usable no-argument constructor, and what its
  `transform` and `reverse` return or throw for each value.
 */
module Transformers {
  import opened Types

  /** What a transformer call does: return a value or throw a runtime exception. */
  datatype Outcome = Returned(value: Value) | Thrown(exception: string)

  /** A transformer class, as named by `@MappedProperty(transformer = ...)`. */
  datatype TransformerClass =
    | NoTransformationClass
    | UserClass(name: string, instantiable: bool,
                forward: Value -> Outcome, backward: Value -> Outcome)

  /** A transformer instance; it holds no state beyond the class it was built from. */
  datatype Transformer = Transformer(cls: TransformerClass)

  /** NoTransformation.transform: hands its argument back unchanged. */
  function IdentityTransform(data: Value): (r: Value)
    ensures r == data
  {
    data
  }

  /** NoTransformation.reverse: hands its argument back unchanged. */
  function IdentityReverse(data: Value): (r: Value)
    ensures r == data
  {
    data
  }

  /** `transformer.transform(value)`, dispatched on the instance's class. */
  function Transform(t: Transformer, v: Value): (r: Outcome)
    ensures t.cls.NoTransformationClass? ==> r == Returned(v)
    ensures t.cls.UserClass? ==> r == t.cls.forward(v)
  {
    match t.cls
    case NoTransformationClass => Returned(IdentityTransform(v))
    case UserClass(_, _, forward, _) => forward(v)
  }

  /** `transformer.reverse(value)`, dispatched on the instance's class. */
  function Reverse(t: Transformer, v: Value): (r: Outcome)
    ensures t.cls.NoTransformationClass? ==> r == Returned(v)
    ensures t.cls.UserClass? ==> r == t.cls.backward(v)
  {
    match t.cls
    case NoTransformationClass => Returned(IdentityReverse(v))
    case UserClass(_, _, _, backward) => backward(v)
  }

  /** Both identity methods return every argument unchanged (null is one of the values). */
  lemma IdentityReturnsArgument(x: Value)
    ensures IdentityTransform(x) == x && IdentityReverse(x) == x
  {
  }

  /** The identity transformer's two directions undo each other, in both orders. */
  lemma IdentityRoundTrips(x: Value)
    ensures IdentityReverse(IdentityTransform(x)) == x
    ensures IdentityTransform(IdentityReverse(x)) == x
  {
  }

  /** Applying the identity transform twice is the same as applying it once. */
  lemma IdentityIdempotent(x: Value)
    ensures IdentityTransform(IdentityTransform(x)) == IdentityTransform(x)
  {
  }

  /**
    NoTransformation has no fields: any two of its instances agree on every
    value, so a result depends only on the argument, never on which instance
    is used or what it was asked before.
   */
  lemma IdentityInstancesAgree(t1: Transformer, t2: Transformer, x: Value)
    requires t1.cls.NoTransformationClass? && t2.cls.NoTransformationClass?
    ensures Transform(t1, x) == Transform(t2, x) == Returned(x)
    ensures Reverse(t1, x) == Reverse(t2, x) == Returned(x)
  {
  }

  /** A NoTransformation instance never throws, and its round trip through the dispatch is the identity. */
  lemma IdentityDispatchRoundTrip(t: Transformer, x: Value)
    requires t.cls.NoTransformationClass?
    ensures Transform(t, x).Returned? && Reverse(t, Transform(t, x).value) == Returned(x)
    ensures Reverse(t, x).Returned? && Transform(t, Reverse(t, x).value) == Returned(x)
  {
  }
}
