/**
  Transfer parameters: the resolved copy instruction for one DTO field.

  A field declaration is the explicit form of what the source reads by
  reflection: the field's name, whether it carries `@Ignore`, and its
  `@MappedProperty` annotation if any. `build` turns a declaration into a
  record of (DTO property, declared model property, transformer instance); the
  model property falls back to the DTO property when it is null or empty,
  evaluated on read.
 */
module Params {
  import opened Types
  import opened Transformers

  /** The `@MappedProperty` annotation's two attributes. */
  datatype MappedProperty = MappedProperty(to: string, transformer: TransformerClass)

  /** `@MappedProperty` with every attribute left at its declared default. */
  const DefaultMapping: MappedProperty := MappedProperty("", NoTransformationClass)

  /** One declared field of a DTO class. */
  datatype FieldDecl = FieldDecl(name: string, ignored: bool, mapping: Option<MappedProperty>)

  /**
    The immutable record built for one field. `modelProperty` is `None` when
    no mapping was declared (Java's null) and holds `to` otherwise, even when
    `to` is empty.
   */
  datatype TransferParams = TransferParams(
    dtoProperty: string,
    modelProperty: Option<string>,
    transformer: Transformer)

  /** The model-side property name with the default-name rule applied. */
  function GetModelProperty(p: TransferParams): (r: string)
    ensures p.modelProperty.Some? && p.modelProperty.value != "" ==> r == p.modelProperty.value
    ensures p.modelProperty.None? || p.modelProperty.value == "" ==> r == p.dtoProperty
  {
    if p.modelProperty.Some? && p.modelProperty.value != "" then p.modelProperty.value
    else p.dtoProperty
  }

  /** The transformer class a field asks for: the annotation's, or NoTransformation without one. */
  function DeclaredTransformer(f: FieldDecl): TransformerClass
  {
    if f.mapping.Some? then f.mapping.value.transformer else NoTransformationClass
  }

  /** The model name a field resolves to, stated directly on the declaration. */
  function ResolvedModelName(f: FieldDecl): string
  {
    if f.mapping.Some? && f.mapping.value.to != "" then f.mapping.value.to else f.name
  }

  /** Whether a transformer class can be instantiated by its no-argument constructor. */
  predicate Instantiable(c: TransformerClass)
  {
    c.NoTransformationClass? || c.instantiable
  }

  /** `newTransformerInstance`: a new instance of exactly the given class, or a creation error. */
  function NewTransformerInstance(c: TransformerClass): (r: Result<Transformer, Error>)
    ensures r.Success? <==> Instantiable(c)
    ensures r.Success? ==> r.value.cls == c
    ensures r.Failure? ==> r.error == TransformerCreation
  {
    if Instantiable(c) then Success(Transformer(c)) else Failure(TransformerCreation)
  }

  /** `TransferParams.build`; `None` stands for a null field. */
  function Build(field: Option<FieldDecl>): (r: Result<TransferParams, Error>)
    ensures field.None? ==> r == Failure(NullPointer)
    ensures field.Some? ==> (r.Success? <==> Instantiable(DeclaredTransformer(field.value)))
    ensures field.Some? && r.Failure? ==> r.error == TransformerCreation
    ensures r.Success? ==> r.value.dtoProperty == field.value.name
    ensures r.Success? ==> r.value.transformer.cls == DeclaredTransformer(field.value)
  {
    if field.None? then Failure(NullPointer)
    else
      var f := field.value;
      var modelPropName := if f.mapping.Some? then Some(f.mapping.value.to) else None;
      match NewTransformerInstance(DeclaredTransformer(f))
      case Failure(e) => Failure(e)
      case Success(t) => Success(TransferParams(f.name, modelPropName, t))
  }

  /**
    The default-name rule seen through `build`: a field without a mapping, or
    with a mapping whose `to` is empty, resolves to its own name; a non-empty
    `to` wins.
   */
  lemma BuildResolvesModelName(f: FieldDecl)
    requires Build(Some(f)).Success?
    ensures GetModelProperty(Build(Some(f)).value) == ResolvedModelName(f)
    ensures f.mapping.None? ==> GetModelProperty(Build(Some(f)).value) == f.name
    ensures f.mapping.Some? && f.mapping.value.to == "" ==> GetModelProperty(Build(Some(f)).value) == f.name
  {
  }

  /** A field without an annotation gets its own name on both sides and a NoTransformation instance. */
  lemma BuildUnannotated(name: string)
    ensures var r := Build(Some(FieldDecl(name, false, None)));
            r.Success? && r.value.dtoProperty == name && GetModelProperty(r.value) == name
            && r.value.transformer.cls.NoTransformationClass?
  {
  }

  /**
    `@MappedProperty` with its defaults behaves exactly like no annotation,
    apart from the stored (empty) model name.
   */
  lemma DefaultMappingIsNoMapping(name: string, ignored: bool)
    ensures var a := Build(Some(FieldDecl(name, ignored, Some(DefaultMapping))));
            var b := Build(Some(FieldDecl(name, ignored, None)));
            a.Success? && b.Success? && a.value.dtoProperty == b.value.dtoProperty
            && GetModelProperty(a.value) == GetModelProperty(b.value)
            && a.value.transformer == b.value.transformer
  {
  }

  /**
    The record is immutable by construction (a datatype value), and
    `getDtoProperty`/`getTransformer` are its selectors. The one derived
    accessor, `getModelProperty`, always answers one of the two names the
    record was built from.
   */
  lemma ModelPropertyIsAGivenName(d: string, m: Option<string>, t: Transformer)
    ensures GetModelProperty(TransferParams(d, m, t)) in {d} + (if m.Some? then {m.value} else {})
  {
  }
}
