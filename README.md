# Assemblae DTO assembler — a Dafny model

Assemblae copies properties between a domain object (the *model*) and a data
transfer object (the *DTO*). Each DTO class declares which of its fields take
part in the copy:
- `@DataTransferObject` marks the class as transferable.
- `@Ignore` leaves a field out.
- `@MappedProperty(to, transformer)` names the model property a field maps to
  and the transformer that converts its value.

`AssemblerImpl` first resolves a class into one `TransferParams` record per
non-ignored field. It then copies each property: it reads the property, runs
the transformer's `transform` (model to DTO) or `reverse` (DTO to model), and
writes the result.

This project models that engine:

- `types.dfy`: property values, the `Option`/`Result` wrappers that stand for
  Java nulls and exceptions, and the error kinds that can escape.
- `beans.dfy`: objects as property bags. `Bean` is a class whose property map
  is updated in place. `Get`, `Put` and `Bean.SetProperty` form the partial
  accessor. It fails on a missing property, and on a property whose getter or
  setter is inaccessible or throws. A setter also refuses an argument of the
  wrong type, or a null for a primitive parameter.
- `transformers.dfy`: `NoTransformation` (the identity) and the dispatch to
  user transformer classes. A user class is a black box: whether it can be
  instantiated, and what `transform`/`reverse` return or throw.
- `params.dfy`: `TransferParams`, `build`, `newTransformerInstance` and the
  default-name rule of `getModelProperty`.
- `assembler.dfy`: `loadPropertyTransferParams`, both copy directions,
  `instantiateDTO`, `assemble` and `assembleAll`.
  - Each is a method proved against a value-level function: `Resolve`,
    `CopyToDto`, `CopyToModel`, `NewInstance` or `AssembleSpec`. The three that loop
    (`LoadPropertyTransferParams`, `Assemble`, `AssembleAll`) carry the loop
    invariants that tie them to it.
  - Lemmas state the engine's properties about those functions.

Behaviour of the code that the model keeps on purpose:
- `instantiateDTO` creates an `AssemblerException` but never throws it.
  - A DTO class that cannot be instantiated therefore yields a null DTO.
  - `assemble` then fails with a null-pointer error at the first copy.
  - If there is nothing to copy, `assemble` returns null
    (`AssembleWithoutParams`, `AssembleUnconstructible`).
- Only the three reflective exceptions of the accessor are wrapped as a
  property-copy error. An exception thrown by a transformer escapes unwrapped
  (`Error.Unchecked`). So does the `IllegalArgumentException` of a setter
  that refuses the value it is given.
- A new transformer instance is built for every non-ignored field. Nothing is
  cached.
- The DTO is instantiated before the class is checked for
  `@DataTransferObject`. This order would be visible only through a
  constructor that throws or has side effects; the model captures neither
  (see below), so instantiation has no visible effect here.

## Model

| member | source | states |
|---|---|---|
| `Transformers.IdentityTransform` | src/main/java/br/com/machinae/assemblae/NoTransformation.java:13-15 | `transform` returns its argument unchanged |
| `Transformers.IdentityReverse` | src/main/java/br/com/machinae/assemblae/NoTransformation.java:18-20 | `reverse` returns its argument unchanged |
| `Transformers.IdentityReturnsArgument` | src/main/java/br/com/machinae/assemblae/NoTransformation.java:13-20 | `transform(x)` and `reverse(x)` return `x` for every value, null included |
| `Transformers.IdentityRoundTrips` | src/main/java/br/com/machinae/assemblae/NoTransformation.java:13-20 | `reverse(transform(x)) == x` and `transform(reverse(x)) == x` |
| `Transformers.IdentityIdempotent` | src/main/java/br/com/machinae/assemblae/NoTransformation.java:13-15 | `transform(transform(x)) == transform(x)` |
| `Transformers.IdentityInstancesAgree` | src/main/java/br/com/machinae/assemblae/NoTransformation.java:10-21 | any two NoTransformation instances return the same result, the argument itself, in both directions (no state) |
| `Transformers.IdentityDispatchRoundTrip` | src/main/java/br/com/machinae/assemblae/NoTransformation.java:13-20 | called through the transformer interface, NoTransformation never throws, and its two directions undo each other |
| `Transformers.Transform` | src/main/java/br/com/machinae/assemblae/AssemblerImpl.java:162 | the call `transformer.transform(value)` runs the instance's own class: a NoTransformation instance returns its argument, and a user class's outcome is exactly what its own `transform` returns or throws for that value |
| `Transformers.Reverse` | src/main/java/br/com/machinae/assemblae/AssemblerImpl.java:133 | the call `transformer.reverse(value)` runs the instance's own class: a NoTransformation instance returns its argument, and a user class's outcome is exactly what its own `reverse` returns or throws for that value |
| `Params.GetModelProperty` | src/main/java/br/com/machinae/assemblae/TransferParams.java:66-72 | the stored model name when it is non-null and non-empty, otherwise the DTO name |
| `Params.NewTransformerInstance` | src/main/java/br/com/machinae/assemblae/TransferParams.java:44-52 | an instance of exactly the requested class when it can be instantiated, otherwise a transformer-creation error |
| `Params.Build` | src/main/java/br/com/machinae/assemblae/TransferParams.java:24-41 | a null field fails with a null-pointer error. Otherwise `build` succeeds iff the declared transformer (NoTransformation without an annotation) can be instantiated, and the DTO name is the field name. The transformer is of the declared class. The only failure is a transformer-creation error |
| `Params.BuildResolvesModelName` | src/main/java/br/com/machinae/assemblae/TransferParams.java:29-40 | through `build`, the model name is the annotation's `to` when non-empty, and the field's own name without an annotation or with `to = ""` |
| `Params.BuildUnannotated` | src/main/java/br/com/machinae/assemblae/TransferParams.java:29-38 | a field without `@MappedProperty` gets its own name on both sides and a NoTransformation instance |
| `Params.DefaultMappingIsNoMapping` | src/main/java/br/com/machinae/assemblae/annotation/MappedProperty.java:22-23 | `@MappedProperty` with its defaults (`to = ""`, `NoTransformation`) resolves exactly like no annotation |
| `Params.ModelPropertyIsAGivenName` | src/main/java/br/com/machinae/assemblae/TransferParams.java:66-72 | `getModelProperty` always answers one of the two names the record was built from |
| `Beans.Get` | src/main/java/br/com/machinae/assemblae/AssemblerImpl.java:202-204 | reading a property succeeds iff it exists and its getter works, and then yields its value. A faulting getter reports its own cause (`IllegalAccess` or `InvocationTarget`); a missing property without a fault entry is `NoSuchMethod` |
| `Beans.Put` | src/main/java/br/com/machinae/assemblae/AssemblerImpl.java:186-188 | writing succeeds iff the property exists, its setter works and its parameter type accepts the value. It then replaces that one property and nothing else. A value of the wrong type, or a null for a primitive, is refused after the setter is found and reachable and before the setter runs. A faulting setter reports its own cause: an inaccessible one always, a throwing one (`InvocationTarget`) whenever the value is accepted; a missing property without a fault entry is `NoSuchMethod` |
| `Beans.Bean.SetProperty` | src/main/java/br/com/machinae/assemblae/AssemblerImpl.java:186-188 | the object's new state is `Put` of the old one; on failure nothing changes |
| `Assembler.NonIgnored` | src/main/java/br/com/machinae/assemblae/AssemblerImpl.java:85-87 | no kept field is marked `@Ignore`, and no more fields are kept than declared |
| `Assembler.NonIgnoredMembers` | src/main/java/br/com/machinae/assemblae/AssemblerImpl.java:85-87 | the kept fields are exactly the declared fields without `@Ignore` |
| `Assembler.AllIgnoredKeepsNone` | src/main/java/br/com/machinae/assemblae/AssemblerImpl.java:85-87 | a class whose every field is ignored keeps no field |
| `Assembler.ResolveFrom` | src/main/java/br/com/machinae/assemblae/AssemblerImpl.java:85-87 | the field loop from a given field on: it only appends to the parameters gathered so far, at most one per field, and its only failure is a transformer-creation error |
| `Assembler.Resolve` | src/main/java/br/com/machinae/assemblae/AssemblerImpl.java:79-81 | a null class fails with a null-pointer error; a class without `@DataTransferObject` fails with an illegal-argument error |
| `Assembler.LoadPropertyTransferParams` | src/main/java/br/com/machinae/assemblae/AssemblerImpl.java:79-90 | the loop over the declared fields computes exactly `Resolve` |
| `Assembler.ResolveSeesOnlyNonIgnored` | src/main/java/br/com/machinae/assemblae/AssemblerImpl.java:85-87 | resolving all fields gives the same result as resolving only the non-ignored ones, so an ignored field never reaches `build` |
| `Assembler.ResolveShape` | src/main/java/br/com/machinae/assemblae/AssemblerImpl.java:83-89 | a successful resolution holds one parameter per non-ignored field, in order, each equal to `build` of that field |
| `Assembler.ResolveSucceedsIff` | src/main/java/br/com/machinae/assemblae/AssemblerImpl.java:85-87 | resolution succeeds iff every non-ignored field's transformer can be instantiated; ignored fields never make it fail; the only failure is a transformer-creation error |
| `Assembler.ResolvedParamsDescribeFields` | src/main/java/br/com/machinae/assemblae/AssemblerImpl.java:83-89 | there is one parameter per non-ignored field, with the field name as DTO property, the model property under the default-name rule, and a transformer of the declared class |
| `Assembler.ResolveContract` | src/main/java/br/com/machinae/assemblae/AssemblerImpl.java:79-90 | for a DTO class: success iff every non-ignored transformer can be created. There is one parameter per non-ignored field, with the field name, the resolved model name and the declared transformer class. No non-ignored field gives no parameter |
| `Assembler.NonIgnoredAvoidsName` | src/main/java/br/com/machinae/assemblae/AssemblerImpl.java:85-87 | dropping ignored fields introduces no name that was not declared |
| `Assembler.NonIgnoredDistinct` | src/main/java/br/com/machinae/assemblae/AssemblerImpl.java:85-87 | dropping ignored fields keeps field names distinct |
| `Assembler.ResolvedParamFor` | src/main/java/br/com/machinae/assemblae/AssemblerImpl.java:83-89 | each non-ignored field has a resolved parameter built from it |
| `Assembler.ResolvedTargets` | src/main/java/br/com/machinae/assemblae/AssemblerImpl.java:83-89 | the resolved parameters write exactly the non-ignored field names |
| `Assembler.ResolvedTargetsDistinct` | src/main/java/br/com/machinae/assemblae/AssemblerImpl.java:83-89 | distinct field names give the resolved parameters distinct DTO property names |
| `Assembler.WriteError` | src/main/java/br/com/machinae/assemblae/AssemblerImpl.java:164-170 | a failed write whose cause is one of the accessor's checked exceptions becomes a property-copy error with that cause. A refused argument escapes as an unchecked `IllegalArgumentException` |
| `Assembler.CopyToDto` | src/main/java/br/com/machinae/assemblae/AssemblerImpl.java:152-171 | a null model, DTO or parameter fails with a null-pointer error. The copy succeeds iff the model property can be read, transformed without an exception and written. The new DTO is the old one with only `dtoProperty` replaced by the transformed value. A read failure is a property-copy error with the getter's cause. An exception thrown by `transform` escapes unwrapped as that exception. A write failure is the write's error: a property-copy error for the setter's checked exceptions, an unchecked `IllegalArgumentException` for a refused value. An unchecked error comes only from a user transformer or a refused value |
| `Assembler.CopyToModel` | src/main/java/br/com/machinae/assemblae/AssemblerImpl.java:122-143 | the mirror image of `CopyToDto`: it reads the DTO property, applies `reverse`, and writes only the resolved model property. The errors are the same: a read failure is a property-copy error, an exception thrown by `reverse` escapes unwrapped, and a write failure is the write's error |
| `Assembler.CopyPropertyFromModelToDto` | src/main/java/br/com/machinae/assemblae/AssemblerImpl.java:152-171 | the DTO's new state is `CopyToDto` of the old states, and the returned error is its error. On failure the DTO is unchanged. Only the DTO may change |
| `Assembler.CopyPropertyFromDtoToModel` | src/main/java/br/com/machinae/assemblae/AssemblerImpl.java:122-143 | the model's new state is `CopyToModel` of the old states. On failure the model is unchanged. Only the model may change |
| `Assembler.IdentityCopyRoundTripModel` | src/main/java/br/com/machinae/assemblae/AssemblerImpl.java:122-171 | with NoTransformation, copying a property to the DTO and back leaves the model as it was |
| `Assembler.IdentityCopyRoundTripDto` | src/main/java/br/com/machinae/assemblae/AssemblerImpl.java:122-171 | with NoTransformation, copying a property to the model and back leaves the DTO as it was |
| `Assembler.CopyToDtoShapeOnly` | src/main/java/br/com/machinae/assemblae/AssemblerImpl.java:152-171 | whether a copy succeeds, and which error it raises, depend on the DTO only through its property names, failing accessors and setter types. A copy keeps those unchanged |
| `Assembler.CopyAll` | src/main/java/br/com/machinae/assemblae/AssemblerImpl.java:46-47 | with a null DTO, an empty parameter list yields null and any copy fails with a null-pointer error. A successful run over a DTO keeps its property names, failing accessors and setter types |
| `Assembler.CopyAllSucceedsIff` | src/main/java/br/com/machinae/assemblae/AssemblerImpl.java:46-47 | copying every parameter into the DTO succeeds iff each single copy would succeed on the original DTO |
| `Assembler.FirstFailureShift` | src/main/java/br/com/machinae/assemblae/AssemblerImpl.java:46-47 | a first failing parameter of the tail, behind a head that copies cleanly, is the first failing parameter of the whole list |
| `Assembler.CopyAllFirstFailure` | src/main/java/br/com/machinae/assemblae/AssemblerImpl.java:46-47 | on failure, the error raised is that of the first parameter whose copy fails, and every earlier parameter copies cleanly |
| `Assembler.CopyAllResult` | src/main/java/br/com/machinae/assemblae/AssemblerImpl.java:46-47 | after every copy (distinct DTO names), each target property holds its parameter's transformed model value. Every other property is unchanged |
| `Assembler.NewInstance` | src/main/java/br/com/machinae/assemblae/AssemblerImpl.java:110-120 | a fresh instance in the class's initial state when the class can be instantiated, otherwise null; the instantiation failure is swallowed |
| `Assembler.AssembleSpec` | src/main/java/br/com/machinae/assemblae/AssemblerImpl.java:40-49 | a null model, or a null class, fails with a null-pointer error before any copy. A class that is not a DTO fails with an illegal-argument error |
| `Assembler.ReadTransformedOfBuild` | src/main/java/br/com/machinae/assemblae/TransferParams.java:24-41 | the value a built parameter carries is the field's model property, under the declared name rule, transformed by the declared class |
| `Assembler.AssembleWithoutParams` | src/main/java/br/com/machinae/assemblae/AssemblerImpl.java:43-49 | with no non-ignored field, `assemble` performs no copy. It returns the fresh instance untouched, or null when the DTO cannot be instantiated |
| `Assembler.AssembleUnconstructible` | src/main/java/br/com/machinae/assemblae/AssemblerImpl.java:110-120 | a DTO class that cannot be instantiated but has a field to copy fails with a null-pointer error, not an assembler exception |
| `Assembler.AssembleResult` | src/main/java/br/com/machinae/assemblae/AssemblerImpl.java:40-49 | a successful non-null `assemble` sets every non-ignored field to the transformed value of its model property. Every other property keeps its freshly constructed value |
| `Assembler.ParamOkIffFieldOk` | src/main/java/br/com/machinae/assemblae/TransferParams.java:24-41 | a built parameter copies cleanly iff its field does |
| `Assembler.FieldsOkViaNonIgnored` | src/main/java/br/com/machinae/assemblae/AssemblerImpl.java:85-87 | every kept field copies cleanly iff every declared field without `@Ignore` does |
| `Assembler.ParamsOkIffFieldsOk` | src/main/java/br/com/machinae/assemblae/AssemblerImpl.java:83-89 | every resolved parameter copies cleanly iff every non-ignored field does |
| `Assembler.AssembleSucceedsIff` | src/main/java/br/com/machinae/assemblae/AssemblerImpl.java:40-49 | `assemble` succeeds iff every non-ignored transformer can be created, and either nothing is to be copied, or the DTO can be instantiated and every non-ignored field reads, transforms and writes cleanly |
| `Assembler.InstantiateDto` | src/main/java/br/com/machinae/assemblae/AssemblerImpl.java:110-120 | a null class fails with a null-pointer error. Otherwise the result is a fresh instance in the class's initial state, or null when instantiation fails; no error is raised |
| `Assembler.Assemble` | src/main/java/br/com/machinae/assemblae/AssemblerImpl.java:40-50 | the result is exactly `AssembleSpec` of the model's state. The DTO is fresh. The model is never modified |
| `Assembler.AssembleAll` | src/main/java/br/com/machinae/assemblae/AssemblerImpl.java:62-70 | a null collection fails with a null-pointer error and an empty one gives an empty result. On success the output has the input's length, element `i` is `assemble(models[i])`, and each DTO is fresh and distinct. On failure, the error is that of the first failing element |

## Left out

- Reflection is not modelled. `getDeclaredFields`, `isAnnotationPresent` and
  `Class.newInstance` are replaced by explicit descriptors:
  - `DtoClass` holds the marker, the field declarations, whether the class can
    be instantiated, and a fresh instance's state.
  - `FieldDecl` holds the field name, `@Ignore`, and `@MappedProperty`.
- The bean library behind `getPropertyValue`/`setPropertyValue` is not
  modelled. It is replaced by a flat property map with per-property failing
  getters and setters, and one parameter type per setter. Nested, indexed and
  mapped property expressions are not modelled.
- Getters and setters are plain accessors. A setter stores its argument in
  its own property and changes nothing else. A getter returns the stored value
  and changes nothing. A Java accessor is user code and could compute, convert
  or touch other state. `CopyToDto`'s "only the target property changes" and
  the identity round-trip lemmas rest on this.
- A view may record a fault for a name that is not one of its properties,
  which no Java object can do. For such a name `Get` reports the recorded
  cause, not `NoSuchMethod`.
- `Value` holds scalars only: integers, strings, booleans and null. Java
  copies object references, so after a copy the model and the DTO can share
  one mutable property object. The model has no such sharing.
- `Value.Int` is unbounded. Java's boxed integers are 32-bit, so a setter's
  type check never meets an out-of-range integer there. Here a transformer
  may return any integer.
- Only the setter types `Object`, `Integer`, `String`, `Boolean`, `int` and
  `boolean` are modelled. Other Java types and the conversions between them
  are not.
- User transformers are pure functions of their argument: no state and no
  side effects. A Java transformer could keep state between calls or change
  the objects it is given.
- The parameter collection is a `HashSet` with unspecified iteration order.
  The model keeps the parameters in field declaration order. The Java order of
  copies, and so which failing property's error escapes first, may differ. The
  success and result lemmas do not depend on the order.
- `Params.Build`: a transformer instance is a value, so "a new object on every
  call" is not expressed as object identity. What is stated is that one
  instance of the declared class is built per non-ignored field and none for
  ignored ones.
- The no-argument `TransferParams()` constructor, and records built by hand
  with a null DTO name or a null transformer, are not modelled. Only tests use
  them. `build` never produces them.
- Constructors that throw a runtime exception or have side effects are not
  modelled. This covers the DTO's and the transformer's. Instantiability is a yes/no property of the
  class.
- Exception messages and cause chains are not modelled. A property-copy error
  records only which accessor failure caused it.
- The code builds a new transformer per field and has no cache. It returns
  null when DTO instantiation fails. It lets transformer exceptions escape
  unwrapped. The model follows the code.
- `getDtoProperty` and `getTransformer` are the record's field selectors. The record is immutable by construction, so they need no lemma.
- `Assembler.AssembleResult` requires distinct field names, which Java
  guarantees within one class.
- Out of scope:
  - `Assembler.java`, `Assemblae.java` and `PropertyTransferParams.java`
    (earlier variants that call a method that does not exist);
  - `Assemblae2.java` (a static facade);
  - the unused transformer map;
  - the annotation, exception and interface declarations, which appear only as
    the datatypes above.
