/**
  The assembler: resolves a DTO class into transfer parameters and copies
  properties between a model and a DTO, one parameter at a time.

  Each operation is a method over `Bean` objects, proved against a value-level
  specification function over `BeanView`s (`Resolve`, `CopyToDto`,
  `CopyToModel`, `AssembleSpec`); the properties of the engine are lemmas about
  those functions.
 */
module Assembler {
  import opened Types
  import opened Beans
  import opened Transformers
  import opened Params

  /**
    A DTO class as the assembler sees it: whether it carries
    `@DataTransferObject`, its declared fields, whether `newInstance` succeeds,
    and the state of a freshly constructed instance.
   */
  datatype DtoClass = DtoClass(
    isDataTransferObject: bool,
    fields: seq<FieldDecl>,
    constructible: bool,
    blank: BeanView)

  // ---------------------------------------------------------------------------
  // Resolution of a DTO class into transfer parameters
  // ---------------------------------------------------------------------------

  /** The fields that are not marked `@Ignore`, in declaration order. */
  function NonIgnored(fields: seq<FieldDecl>): (r: seq<FieldDecl>)
    ensures |r| <= |fields|
    ensures forall k :: 0 <= k < |r| ==> !r[k].ignored
  {
    if fields == [] then []
    else if fields[0].ignored then NonIgnored(fields[1..])
    else [fields[0]] + NonIgnored(fields[1..])
  }

  /** The kept fields are exactly the declared fields without `@Ignore`. */
  lemma {:induction false} NonIgnoredMembers(fields: seq<FieldDecl>)
    ensures forall f :: f in NonIgnored(fields) <==> f in fields && !f.ignored
    decreases |fields|
  {
    if fields != [] {
      NonIgnoredMembers(fields[1..]);
      assert fields == [fields[0]] + fields[1..];
    }
  }

  /** A class whose fields are all ignored keeps none of them. */
  lemma {:induction false} AllIgnoredKeepsNone(fields: seq<FieldDecl>)
    requires forall f :: f in fields ==> f.ignored
    ensures NonIgnored(fields) == []
    decreases |fields|
  {
    if fields != [] {
      assert fields[0] in fields;
      assert forall f :: f in fields[1..] ==> f in fields;
      AllIgnoredKeepsNone(fields[1..]);
    }
  }

  /** The names of the fields that are not marked `@Ignore`. */
  ghost function CopiedNames(fields: seq<FieldDecl>): set<string>
  {
    set k | 0 <= k < |fields| && !fields[k].ignored :: fields[k].name
  }

  /** Java forbids two fields of one class with the same name. */
  ghost predicate DistinctNames(fields: seq<FieldDecl>)
  {
    forall i, j :: 0 <= i < j < |fields| ==> fields[i].name != fields[j].name
  }

  /**
    The loop of `loadPropertyTransferParams` from a given field on: ignored
    fields are skipped, every other field is built in turn, and the first
    failing build aborts the whole resolution.
   */
  function ResolveFrom(fields: seq<FieldDecl>, acc: seq<TransferParams>): (r: Result<seq<TransferParams>, Error>)
    ensures r.Failure? ==> r.error == TransformerCreation
    ensures r.Success? ==> acc <= r.value && |r.value| <= |acc| + |fields|
    decreases |fields|
  {
    if fields == [] then Success(acc)
    else if fields[0].ignored then ResolveFrom(fields[1..], acc)
    else match Build(Some(fields[0]))
      case Failure(e) => Failure(e)
      case Success(p) => ResolveFrom(fields[1..], acc + [p])
  }

  /** `loadPropertyTransferParams`; `None` stands for a null class. */
  function Resolve(cls: Option<DtoClass>): (r: Result<seq<TransferParams>, Error>)
    ensures cls.None? ==> r == Failure(NullPointer)
    ensures cls.Some? && !cls.value.isDataTransferObject ==> r == Failure(IllegalArgument)
  {
    if cls.None? then Failure(NullPointer)
    else if !cls.value.isDataTransferObject then Failure(IllegalArgument)
    else ResolveFrom(cls.value.fields, [])
  }

  method LoadPropertyTransferParams(cls: Option<DtoClass>) returns (r: Result<seq<TransferParams>, Error>)
    ensures r == Resolve(cls)
  {
    if cls.None? {
      return Failure(NullPointer);
    }
    if !cls.value.isDataTransferObject {
      return Failure(IllegalArgument);
    }
    var fields := cls.value.fields;
    var transferParams: seq<TransferParams> := [];
    var i := 0;
    while i < |fields|
      invariant 0 <= i <= |fields|
      invariant ResolveFrom(fields, []) == ResolveFrom(fields[i..], transferParams)
    {
      assert fields[i..][0] == fields[i] && fields[i..][1..] == fields[i + 1..];
      if !fields[i].ignored {
        var param := Build(Some(fields[i]));
        if param.Failure? {
          return Failure(param.error);
        }
        transferParams := transferParams + [param.value];
      }
      i := i + 1;
    }
    assert fields[i..] == [];
    return Success(transferParams);
  }

  /** Ignored fields never reach `build`: resolving all fields is resolving the non-ignored ones. */
  lemma {:induction false} ResolveSeesOnlyNonIgnored(fields: seq<FieldDecl>, acc: seq<TransferParams>)
    ensures ResolveFrom(fields, acc) == ResolveFrom(NonIgnored(fields), acc)
    decreases |fields|
  {
    if fields != [] {
      var rest := NonIgnored(fields[1..]);
      ResolveSeesOnlyNonIgnored(fields[1..], acc);
      if !fields[0].ignored {
        assert NonIgnored(fields) == [fields[0]] + rest;
        assert ([fields[0]] + rest)[0] == fields[0] && ([fields[0]] + rest)[1..] == rest;
        match Build(Some(fields[0]))
        case Failure(_) =>
        case Success(p) => ResolveSeesOnlyNonIgnored(fields[1..], acc + [p]);
      }
    }
  }

  /** A successful resolution holds exactly one parameter per non-ignored field, each built from that field. */
  lemma {:induction false} ResolveShape(fields: seq<FieldDecl>, acc: seq<TransferParams>)
    requires ResolveFrom(fields, acc).Success?
    ensures var ps := ResolveFrom(fields, acc).value;
            |ps| == |acc| + |NonIgnored(fields)| && ps[..|acc|] == acc
            && forall k :: 0 <= k < |NonIgnored(fields)| ==>
                 Build(Some(NonIgnored(fields)[k])) == Success(ps[|acc| + k])
    decreases |fields|
  {
    if fields != [] {
      var rest := fields[1..];
      if fields[0].ignored {
        ResolveShape(rest, acc);
      } else {
        var p := Build(Some(fields[0])).value;
        ResolveShape(rest, acc + [p]);
        var ps := ResolveFrom(fields, acc).value;
        var ni := NonIgnored(fields);
        assert ni == [fields[0]] + NonIgnored(rest);
        assert ps[..|acc| + 1] == acc + [p];
        assert ps[..|acc|] == (acc + [p])[..|acc|];
        forall k | 0 <= k < |ni|
          ensures Build(Some(ni[k])) == Success(ps[|acc| + k])
        {
          if k == 0 {
            assert ps[|acc|] == (acc + [p])[|acc|];
          } else {
            assert ni[k] == NonIgnored(rest)[k - 1];
          }
        }
      }
    }
  }

  /**
    Resolution succeeds exactly when every non-ignored field's transformer can
    be instantiated; a field marked `@Ignore` never makes it fail. The only
    failure is a transformer creation error.
   */
  lemma {:induction false} ResolveSucceedsIff(fields: seq<FieldDecl>, acc: seq<TransferParams>)
    ensures ResolveFrom(fields, acc).Success? <==>
            forall k :: 0 <= k < |fields| && !fields[k].ignored ==> Instantiable(DeclaredTransformer(fields[k]))
    ensures ResolveFrom(fields, acc).Failure? ==> ResolveFrom(fields, acc).error == TransformerCreation
    decreases |fields|
  {
    if fields != [] {
      var rest := fields[1..];
      assert forall k :: 1 <= k < |fields| ==> fields[k] == rest[k - 1];
      if fields[0].ignored {
        ResolveSucceedsIff(rest, acc);
      } else {
        match Build(Some(fields[0]))
        case Failure(_) =>
        case Success(p) => ResolveSucceedsIff(rest, acc + [p]);
      }
    }
  }

  /** Dropping ignored fields introduces no name that was not declared. */
  lemma {:induction false} NonIgnoredAvoidsName(fields: seq<FieldDecl>, n: string)
    requires forall i :: 0 <= i < |fields| ==> fields[i].name != n
    ensures forall j :: 0 <= j < |NonIgnored(fields)| ==> NonIgnored(fields)[j].name != n
    decreases |fields|
  {
    if fields != [] {
      var rest := fields[1..];
      assert forall i :: 0 <= i < |rest| ==> rest[i] == fields[i + 1];
      NonIgnoredAvoidsName(rest, n);
    }
  }

  /** Names stay distinct when ignored fields are dropped. */
  lemma {:induction false} NonIgnoredDistinct(fields: seq<FieldDecl>)
    requires DistinctNames(fields)
    ensures DistinctNames(NonIgnored(fields))
    decreases |fields|
  {
    if fields != [] {
      var rest := fields[1..];
      assert forall i :: 0 <= i < |rest| ==> rest[i] == fields[i + 1];
      NonIgnoredDistinct(rest);
      if !fields[0].ignored {
        var tail := NonIgnored(rest);
        NonIgnoredAvoidsName(rest, fields[0].name);
        var ni := [fields[0]] + tail;
        assert forall j :: 1 <= j < |ni| ==> ni[j] == tail[j - 1];
      }
    }
  }

  /**
    Each parameter of a resolved class describes its non-ignored field: the
    field name as DTO property, the model property under the default-name rule,
    and a transformer of the declared class.
   */
  lemma ResolvedParamsDescribeFields(cls: DtoClass)
    requires cls.isDataTransferObject && Resolve(Some(cls)).Success?
    ensures var ps := Resolve(Some(cls)).value;
            var ni := NonIgnored(cls.fields);
            |ps| == |ni|
            && forall k :: 0 <= k < |ps| ==>
                 ps[k].dtoProperty == ni[k].name
                 && GetModelProperty(ps[k]) == ResolvedModelName(ni[k])
                 && ps[k].transformer.cls == DeclaredTransformer(ni[k])
  {
    ResolveShape(cls.fields, []);
    var ps := Resolve(Some(cls)).value;
    var ni := NonIgnored(cls.fields);
    forall k | 0 <= k < |ps|
      ensures GetModelProperty(ps[k]) == ResolvedModelName(ni[k])
    {
      BuildResolvesModelName(ni[k]);
    }
  }

  /**
    What `loadPropertyTransferParams` promises for a `@DataTransferObject`
    class: it succeeds exactly when every non-ignored field's transformer can
    be created; then it yields one parameter per non-ignored field whose DTO
    property is the field name, whose model property follows the default-name
    rule and whose transformer is of the declared class; a class with no
    non-ignored field yields no parameter.
   */
  lemma ResolveContract(cls: DtoClass)
    requires cls.isDataTransferObject
    ensures Resolve(Some(cls)).Success? <==>
            forall f :: f in cls.fields && !f.ignored ==> Instantiable(DeclaredTransformer(f))
    ensures Resolve(Some(cls)).Failure? ==> Resolve(Some(cls)).error == TransformerCreation
    ensures Resolve(Some(cls)).Success? ==>
            var ps := Resolve(Some(cls)).value;
            var ni := NonIgnored(cls.fields);
            |ps| == |ni|
            && forall k :: 0 <= k < |ps| ==>
                 ps[k].dtoProperty == ni[k].name
                 && GetModelProperty(ps[k]) == ResolvedModelName(ni[k])
                 && ps[k].transformer.cls == DeclaredTransformer(ni[k])
    ensures (forall f :: f in cls.fields ==> f.ignored) ==> Resolve(Some(cls)) == Success([])
  {
    var fields := cls.fields;
    ResolveSucceedsIff(fields, []);
    assert (forall k :: 0 <= k < |fields| && !fields[k].ignored ==> Instantiable(DeclaredTransformer(fields[k])))
       <==> (forall f :: f in fields && !f.ignored ==> Instantiable(DeclaredTransformer(f)));
    if Resolve(Some(cls)).Success? {
      ResolvedParamsDescribeFields(cls);
    }
    if forall f :: f in fields ==> f.ignored {
      AllIgnoredKeepsNone(fields);
      ResolveSeesOnlyNonIgnored(fields, []);
    }
  }

  // ---------------------------------------------------------------------------
  // Copying one property
  // ---------------------------------------------------------------------------

  /** The value a parameter carries from the model to the DTO: the model property, transformed. */
  function ReadTransformed(m: BeanView, p: TransferParams): Option<Value>
  {
    match Get(m, GetModelProperty(p))
    case Failure(_) => None
    case Success(v) =>
      match Transform(p.transformer, v)
      case Thrown(_) => None
      case Returned(w) => Some(w)
  }

  /** The value a parameter carries from the DTO to the model: the DTO property, reversed. */
  function ReadReversed(d: BeanView, p: TransferParams): Option<Value>
  {
    match Get(d, p.dtoProperty)
    case Failure(_) => None
    case Success(v) =>
      match Reverse(p.transformer, v)
      case Thrown(_) => None
      case Returned(w) => Some(w)
  }

  /** Two views with the same property names, the same failing accessors and the same setter types. */
  ghost predicate SameShape(a: BeanView, b: BeanView)
  {
    a.props.Keys == b.props.Keys && a.readFaults == b.readFaults && a.writeFaults == b.writeFaults
    && a.setterTypes == b.setterTypes
  }

  /** The unchecked exception a setter's reflective call raises on an argument of the wrong type. */
  const ArgumentTypeMismatch: string := "IllegalArgumentException"

  /**
    How a failed write reaches the caller: the accessor's checked exceptions
    are wrapped as a copy error, a refused argument escapes unwrapped.
   */
  function WriteError(e: WriteFailure): (r: Error)
    ensures e.Fault? <==> r.PropertyCopy?
    ensures e.Fault? ==> r.cause == e.cause
    ensures e.Rejected? ==> r == Unchecked(ArgumentTypeMismatch)
  {
    match e
    case Fault(c) => PropertyCopy(c)
    case Rejected => Unchecked(ArgumentTypeMismatch)
  }

  /** Whether copying `p` from model `m` into DTO `d` goes through. */
  predicate ModelToDtoOk(m: BeanView, d: BeanView, p: TransferParams)
  {
    ReadTransformed(m, p).Some? && CanWrite(d, p.dtoProperty, ReadTransformed(m, p).value)
  }

  /**
    `copyPropertyFromModelToDTO` on values: the new state of the DTO, or the
    exception. Null arguments fail first; then the model property is read,
    transformed and written to the DTO property. The accessor's checked
    exceptions are wrapped as copy errors; an exception thrown by the
    transformer, and a setter refusing the transformed value, escape unwrapped.
   */
  function CopyToDto(model: Option<BeanView>, dto: Option<BeanView>, param: Option<TransferParams>): (r: Result<BeanView, Error>)
    ensures model.None? || dto.None? || param.None? ==> r == Failure(NullPointer)
    ensures r.Success? <==> model.Some? && dto.Some? && param.Some? && ModelToDtoOk(model.value, dto.value, param.value)
    ensures r.Success? ==>
              r.value == dto.value.(props := dto.value.props[param.value.dtoProperty := ReadTransformed(model.value, param.value).value])
    ensures model.Some? && dto.Some? && param.Some? ==>
              var read := Get(model.value, GetModelProperty(param.value));
              (read.Failure? ==> r == Failure(PropertyCopy(read.error)))
              && (read.Success? && Transform(param.value.transformer, read.value).Thrown? ==>
                    r == Failure(Unchecked(Transform(param.value.transformer, read.value).exception)))
    ensures model.Some? && dto.Some? && param.Some? && ReadTransformed(model.value, param.value).Some? ==>
              var write := Put(dto.value, param.value.dtoProperty, ReadTransformed(model.value, param.value).value);
              write.Failure? ==> r == Failure(WriteError(write.error))
    ensures r.Failure? && r.error.Unchecked? ==>
              param.Some? && (param.value.transformer.cls.UserClass? || r.error == Unchecked(ArgumentTypeMismatch))
  {
    if model.None? || dto.None? || param.None? then Failure(NullPointer)
    else
      var p := param.value;
      match Get(model.value, GetModelProperty(p))
      case Failure(c) => Failure(PropertyCopy(c))
      case Success(v) =>
        match Transform(p.transformer, v)
        case Thrown(x) => Failure(Unchecked(x))
        case Returned(w) =>
          match Put(dto.value, p.dtoProperty, w)
          case Failure(e) => Failure(WriteError(e))
          case Success(d) => Success(d)
  }

  /** Whether copying `p` back from DTO `d` into model `m` goes through. */
  predicate DtoToModelOk(d: BeanView, m: BeanView, p: TransferParams)
  {
    ReadReversed(d, p).Some? && CanWrite(m, GetModelProperty(p), ReadReversed(d, p).value)
  }

  /**
    `copyPropertyFromDTOToModel` on values: the new state of the model, or the
    exception; the mirror image of `CopyToDto`, using `reverse`.
   */
  function CopyToModel(dto: Option<BeanView>, model: Option<BeanView>, param: Option<TransferParams>): (r: Result<BeanView, Error>)
    ensures model.None? || dto.None? || param.None? ==> r == Failure(NullPointer)
    ensures r.Success? <==> model.Some? && dto.Some? && param.Some? && DtoToModelOk(dto.value, model.value, param.value)
    ensures r.Success? ==>
              r.value == model.value.(props := model.value.props[GetModelProperty(param.value) := ReadReversed(dto.value, param.value).value])
    ensures model.Some? && dto.Some? && param.Some? ==>
              var read := Get(dto.value, param.value.dtoProperty);
              (read.Failure? ==> r == Failure(PropertyCopy(read.error)))
              && (read.Success? && Reverse(param.value.transformer, read.value).Thrown? ==>
                    r == Failure(Unchecked(Reverse(param.value.transformer, read.value).exception)))
    ensures model.Some? && dto.Some? && param.Some? && ReadReversed(dto.value, param.value).Some? ==>
              var write := Put(model.value, GetModelProperty(param.value), ReadReversed(dto.value, param.value).value);
              write.Failure? ==> r == Failure(WriteError(write.error))
    ensures r.Failure? && r.error.Unchecked? ==>
              param.Some? && (param.value.transformer.cls.UserClass? || r.error == Unchecked(ArgumentTypeMismatch))
  {
    if model.None? || dto.None? || param.None? then Failure(NullPointer)
    else
      var p := param.value;
      match Get(dto.value, p.dtoProperty)
      case Failure(c) => Failure(PropertyCopy(c))
      case Success(v) =>
        match Reverse(p.transformer, v)
        case Thrown(x) => Failure(Unchecked(x))
        case Returned(w) =>
          match Put(model.value, GetModelProperty(p), w)
          case Failure(e) => Failure(WriteError(e))
          case Success(m) => Success(m)
  }

  method CopyPropertyFromModelToDto(model: Bean?, dto: Bean?, param: Option<TransferParams>) returns (failure: Option<Error>)
    modifies dto
    ensures match CopyToDto(old(ViewOf(model)), old(ViewOf(dto)), param)
            case Success(d) => failure == None && dto != null && dto.View() == d
            case Failure(e) => failure == Some(e) && (dto != null ==> dto.props == old(dto.props))
  {
    if model == null || dto == null || param.None? {
      return Some(NullPointer);
    }
    var p := param.value;
    var modelProperty := GetModelProperty(p);
    var dtoProperty := p.dtoProperty;
    var value := Get(model.View(), modelProperty);
    if value.Failure? {
      return Some(PropertyCopy(value.error));
    }
    match Transform(p.transformer, value.value)
    case Thrown(x) =>
      return Some(Unchecked(x));
    case Returned(w) =>
      var setFailure := dto.SetProperty(dtoProperty, w);
      if setFailure.Some? {
        return Some(WriteError(setFailure.value));
      }
      return None;
  }

  method CopyPropertyFromDtoToModel(dto: Bean?, model: Bean?, param: Option<TransferParams>) returns (failure: Option<Error>)
    modifies model
    ensures match CopyToModel(old(ViewOf(dto)), old(ViewOf(model)), param)
            case Success(m) => failure == None && model != null && model.View() == m
            case Failure(e) => failure == Some(e) && (model != null ==> model.props == old(model.props))
  {
    if model == null || dto == null || param.None? {
      return Some(NullPointer);
    }
    var p := param.value;
    var modelProperty := GetModelProperty(p);
    var dtoProperty := p.dtoProperty;
    var value := Get(dto.View(), dtoProperty);
    if value.Failure? {
      return Some(PropertyCopy(value.error));
    }
    match Reverse(p.transformer, value.value)
    case Thrown(x) =>
      return Some(Unchecked(x));
    case Returned(w) =>
      var setFailure := model.SetProperty(modelProperty, w);
      if setFailure.Some? {
        return Some(WriteError(setFailure.value));
      }
      return None;
  }

  /**
    With the identity transformer, copying a property to the DTO and back
    leaves the model as it was.
   */
  lemma IdentityCopyRoundTripModel(m: BeanView, d: BeanView, p: TransferParams)
    requires p.transformer.cls.NoTransformationClass?
    requires CopyToDto(Some(m), Some(d), Some(p)).Success?
    requires CopyToModel(Some(CopyToDto(Some(m), Some(d), Some(p)).value), Some(m), Some(p)).Success?
    ensures CopyToModel(Some(CopyToDto(Some(m), Some(d), Some(p)).value), Some(m), Some(p)).value == m
  {
    var name := GetModelProperty(p);
    assert m.props[name := m.props[name]] == m.props;
  }

  /**
    With the identity transformer, copying a property to the model and back
    leaves the DTO as it was.
   */
  lemma IdentityCopyRoundTripDto(d: BeanView, m: BeanView, p: TransferParams)
    requires p.transformer.cls.NoTransformationClass?
    requires CopyToModel(Some(d), Some(m), Some(p)).Success?
    requires CopyToDto(Some(CopyToModel(Some(d), Some(m), Some(p)).value), Some(d), Some(p)).Success?
    ensures CopyToDto(Some(CopyToModel(Some(d), Some(m), Some(p)).value), Some(d), Some(p)).value == d
  {
    assert d.props[p.dtoProperty := d.props[p.dtoProperty]] == d.props;
  }

  // ---------------------------------------------------------------------------
  // Copying every parameter into one DTO
  // ---------------------------------------------------------------------------

  /** The loop of `assemble`: copies each parameter in turn into the same DTO, stopping at the first failure. */
  function CopyAll(m: BeanView, dto: Option<BeanView>, ps: seq<TransferParams>): (r: Result<Option<BeanView>, Error>)
    ensures dto.None? ==> r == if ps == [] then Success(None) else Failure(NullPointer)
    ensures dto.Some? && r.Success? ==> r.value.Some? && SameShape(r.value.value, dto.value)
    decreases |ps|
  {
    if ps == [] then Success(dto)
    else match CopyToDto(Some(m), dto, Some(ps[0]))
      case Failure(e) => Failure(e)
      case Success(d) => CopyAll(m, Some(d), ps[1..])
  }

  /** The DTO properties a list of parameters writes. */
  ghost function Targets(ps: seq<TransferParams>): set<string>
  {
    set k | 0 <= k < |ps| :: ps[k].dtoProperty
  }

  ghost predicate DistinctTargets(ps: seq<TransferParams>)
  {
    forall i, j :: 0 <= i < j < |ps| ==> ps[i].dtoProperty != ps[j].dtoProperty
  }

  /** Whether a single copy goes through depends on the DTO only through its shape. */
  lemma CopyToDtoShapeOnly(m: BeanView, d1: BeanView, d2: BeanView, p: TransferParams)
    requires SameShape(d1, d2)
    ensures CopyToDto(Some(m), Some(d1), Some(p)).Success? == CopyToDto(Some(m), Some(d2), Some(p)).Success?
    ensures CopyToDto(Some(m), Some(d1), Some(p)).Failure? ==>
              CopyToDto(Some(m), Some(d1), Some(p)).error == CopyToDto(Some(m), Some(d2), Some(p)).error
    ensures CopyToDto(Some(m), Some(d1), Some(p)).Success? ==>
              SameShape(CopyToDto(Some(m), Some(d1), Some(p)).value, d1)
  {
  }

  /** Copying every parameter succeeds exactly when each single copy would succeed on the original DTO. */
  lemma {:induction false} CopyAllSucceedsIff(m: BeanView, d: BeanView, ps: seq<TransferParams>)
    ensures CopyAll(m, Some(d), ps).Success? <==> forall k :: 0 <= k < |ps| ==> ModelToDtoOk(m, d, ps[k])
    decreases |ps|
  {
    if ps != [] {
      var rest := ps[1..];
      assert forall k :: 1 <= k < |ps| ==> ps[k] == rest[k - 1];
      var step := CopyToDto(Some(m), Some(d), Some(ps[0]));
      if step.Success? {
        var d' := step.value;
        CopyToDtoShapeOnly(m, d, d', ps[0]);
        forall k | 0 <= k < |rest| ensures ModelToDtoOk(m, d', rest[k]) == ModelToDtoOk(m, d, rest[k]) {
          CopyToDtoShapeOnly(m, d, d', rest[k]);
        }
        CopyAllSucceedsIff(m, d', rest);
      }
    }
  }

  /** Parameter `k` is the first whose copy into a DTO shaped like `d` fails. */
  ghost predicate FirstFailureAt(m: BeanView, d: BeanView, ps: seq<TransferParams>, k: int)
  {
    0 <= k < |ps| && !ModelToDtoOk(m, d, ps[k])
    && forall j :: 0 <= j < k ==> ModelToDtoOk(m, d, ps[j])
  }

  /** A first failure in the tail, behind a clean head, is a first failure of the whole list. */
  lemma FirstFailureShift(m: BeanView, d: BeanView, d': BeanView, ps: seq<TransferParams>, k: int)
    requires ps != [] && SameShape(d, d') && ModelToDtoOk(m, d, ps[0])
    requires FirstFailureAt(m, d', ps[1..], k)
    ensures FirstFailureAt(m, d, ps, k + 1)
  {
    var rest := ps[1..];
    CopyToDtoShapeOnly(m, d', d, rest[k]);
    forall j | 0 <= j < k + 1 ensures ModelToDtoOk(m, d, ps[j]) {
      if j > 0 {
        assert ps[j] == rest[j - 1];
        CopyToDtoShapeOnly(m, d, d', rest[j - 1]);
      }
    }
  }

  /**
    Fail-fast: when copying fails, the error is that of the first parameter
    whose copy fails, and every parameter before it copies cleanly.
   */
  lemma {:induction false} CopyAllFirstFailure(m: BeanView, d: BeanView, ps: seq<TransferParams>)
    requires CopyAll(m, Some(d), ps).Failure?
    ensures exists k :: FirstFailureAt(m, d, ps, k)
              && CopyAll(m, Some(d), ps).error == CopyToDto(Some(m), Some(d), Some(ps[k])).error
    decreases |ps|
  {
    var rest := ps[1..];
    var step := CopyToDto(Some(m), Some(d), Some(ps[0]));
    if step.Failure? {
      assert FirstFailureAt(m, d, ps, 0);
    } else {
      var d' := step.value;
      CopyToDtoShapeOnly(m, d, d', ps[0]);
      CopyAllFirstFailure(m, d', rest);
      var k :| FirstFailureAt(m, d', rest, k)
               && CopyAll(m, Some(d'), rest).error == CopyToDto(Some(m), Some(d'), Some(rest[k])).error;
      FirstFailureShift(m, d, d', ps, k);
      CopyToDtoShapeOnly(m, d', d, rest[k]);
      assert ps[k + 1] == rest[k];
    }
  }

  /**
    After copying every parameter (with distinct DTO properties), each target
    property holds its parameter's transformed model value and every other
    DTO property is unchanged.
   */
  lemma {:induction false} CopyAllResult(m: BeanView, d: BeanView, ps: seq<TransferParams>)
    requires DistinctTargets(ps)
    requires CopyAll(m, Some(d), ps).Success?
    ensures var r := CopyAll(m, Some(d), ps).value;
            r.Some? && SameShape(r.value, d)
            && (forall k :: 0 <= k < |ps| ==>
                  ps[k].dtoProperty in r.value.props
                  && ReadTransformed(m, ps[k]) == Some(r.value.props[ps[k].dtoProperty]))
            && (forall n :: n in d.props && n !in Targets(ps) ==> n in r.value.props && r.value.props[n] == d.props[n])
    decreases |ps|
  {
    if ps != [] {
      var rest := ps[1..];
      var p := ps[0];
      var d' := CopyToDto(Some(m), Some(d), Some(p)).value;
      assert DistinctTargets(rest) by {
        forall i, j | 0 <= i < j < |rest| ensures rest[i].dtoProperty != rest[j].dtoProperty {
          assert rest[i] == ps[i + 1] && rest[j] == ps[j + 1];
        }
      }
      CopyAllResult(m, d', rest);
      var r := CopyAll(m, Some(d), ps).value.value;
      assert p.dtoProperty !in Targets(rest) by {
        forall k | 0 <= k < |rest| ensures rest[k].dtoProperty != p.dtoProperty {
          assert rest[k] == ps[k + 1];
        }
      }
      forall k | 0 <= k < |ps|
        ensures ps[k].dtoProperty in r.props && ReadTransformed(m, ps[k]) == Some(r.props[ps[k].dtoProperty])
      {
        if k > 0 {
          assert ps[k] == rest[k - 1];
        }
      }
      forall n | n in d.props && n !in Targets(ps)
        ensures n in r.props && r.props[n] == d.props[n]
      {
        assert n != p.dtoProperty;
        assert n !in Targets(rest) by {
          forall k | 0 <= k < |rest| ensures rest[k].dtoProperty != n {
            assert rest[k] == ps[k + 1];
          }
        }
      }
    }
  }

  // ---------------------------------------------------------------------------
  // assemble and assembleAll
  // ---------------------------------------------------------------------------

  /**
    What `instantiateDTO` yields: a fresh instance in the class's initial
    state, or null when the class cannot be instantiated (the failure is
    swallowed, never raised).
   */
  function NewInstance(cls: DtoClass): (r: Option<BeanView>)
    ensures r.Some? <==> cls.constructible
    ensures r.Some? ==> r.value == cls.blank
  {
    if cls.constructible then Some(cls.blank) else None
  }

  /**
    `assemble` on values: the resulting DTO (`None` is a null result), or the
    exception. The model and class are checked for null, the DTO is
    instantiated (a failed instantiation yields null, not an exception), the
    class is resolved, and every parameter is copied into that one DTO.
   */
  function AssembleSpec(model: Option<BeanView>, cls: Option<DtoClass>): (r: Result<Option<BeanView>, Error>)
    ensures model.None? || cls.None? ==> r == Failure(NullPointer)
    ensures model.Some? && cls.Some? && !cls.value.isDataTransferObject ==> r == Failure(IllegalArgument)
  {
    if model.None? || cls.None? then Failure(NullPointer)
    else
      match Resolve(cls)
      case Failure(e) => Failure(e)
      case Success(ps) => CopyAll(model.value, NewInstance(cls.value), ps)
  }

  /** The value a field ends up with in the DTO, stated directly on the declaration. */
  function FieldValue(m: BeanView, f: FieldDecl): Option<Value>
  {
    match Get(m, ResolvedModelName(f))
    case Failure(_) => None
    case Success(v) =>
      match Transform(Transformer(DeclaredTransformer(f)), v)
      case Thrown(_) => None
      case Returned(w) => Some(w)
  }

  lemma ReadTransformedOfBuild(m: BeanView, f: FieldDecl)
    requires Build(Some(f)).Success?
    ensures ReadTransformed(m, Build(Some(f)).value) == FieldValue(m, f)
  {
    BuildResolvesModelName(f);
  }

  /**
    A class with no field left after `@Ignore` is filtered out performs no
    copy: `assemble` hands back the fresh instance untouched, or null when the
    DTO cannot be instantiated.
   */
  lemma AssembleWithoutParams(m: BeanView, cls: DtoClass)
    requires cls.isDataTransferObject
    requires forall f :: f in cls.fields ==> f.ignored
    ensures AssembleSpec(Some(m), Some(cls)) == Success(NewInstance(cls))
    ensures !cls.constructible ==> AssembleSpec(Some(m), Some(cls)) == Success(None)
  {
    ResolveContract(cls);
  }

  /**
    A DTO class that cannot be instantiated but has a field to copy makes
    `assemble` fail with a null-pointer error at the first copy, not with an
    assembler exception.
   */
  lemma AssembleUnconstructible(m: BeanView, cls: DtoClass)
    requires cls.isDataTransferObject && !cls.constructible
    requires forall f :: f in cls.fields && !f.ignored ==> Instantiable(DeclaredTransformer(f))
    requires exists f :: f in cls.fields && !f.ignored
    ensures AssembleSpec(Some(m), Some(cls)) == Failure(NullPointer)
  {
    ResolveContract(cls);
    var f :| f in cls.fields && !f.ignored;
    NonIgnoredMembers(cls.fields);
    assert f in NonIgnored(cls.fields);
  }

  /** Each non-ignored field of a resolved class has its own parameter, built from it. */
  lemma ResolvedParamFor(cls: DtoClass, f: FieldDecl)
    requires cls.isDataTransferObject && Resolve(Some(cls)).Success?
    requires f in cls.fields && !f.ignored
    ensures var ps := Resolve(Some(cls)).value;
            exists k :: 0 <= k < |ps| && Build(Some(f)) == Success(ps[k])
  {
    var ps := Resolve(Some(cls)).value;
    var ni := NonIgnored(cls.fields);
    ResolveShape(cls.fields, []);
    NonIgnoredMembers(cls.fields);
    assert f in ni;
    var k :| 0 <= k < |ni| && ni[k] == f;
    assert Build(Some(f)) == Success(ps[k]);
  }

  /** The parameters of a resolved class write exactly the names of its non-ignored fields. */
  lemma ResolvedTargets(cls: DtoClass)
    requires cls.isDataTransferObject && Resolve(Some(cls)).Success?
    ensures Targets(Resolve(Some(cls)).value) == CopiedNames(cls.fields)
  {
    var fields := cls.fields;
    var ps := Resolve(Some(cls)).value;
    var ni := NonIgnored(fields);
    ResolveShape(fields, []);
    forall n | n in CopiedNames(fields) ensures n in Targets(ps) {
      var i :| 0 <= i < |fields| && !fields[i].ignored && fields[i].name == n;
      ResolvedParamFor(cls, fields[i]);
    }
    forall n | n in Targets(ps) ensures n in CopiedNames(fields) {
      var k :| 0 <= k < |ps| && ps[k].dtoProperty == n;
      NonIgnoredMembers(fields);
      assert ni[k] in ni;
      var i :| 0 <= i < |fields| && fields[i] == ni[k];
    }
  }

  /** Distinct field names give the parameters of a resolved class distinct DTO properties. */
  lemma ResolvedTargetsDistinct(cls: DtoClass)
    requires cls.isDataTransferObject && Resolve(Some(cls)).Success?
    requires DistinctNames(cls.fields)
    ensures DistinctTargets(Resolve(Some(cls)).value)
  {
    var fields := cls.fields;
    var ps := Resolve(Some(cls)).value;
    var ni := NonIgnored(fields);
    ResolveShape(fields, []);
    NonIgnoredDistinct(fields);
    forall i, j | 0 <= i < j < |ps| ensures ps[i].dtoProperty != ps[j].dtoProperty {
      assert ps[i].dtoProperty == ni[i].name && ps[j].dtoProperty == ni[j].name;
    }
  }

  /**
    A successful `assemble` (of a class whose field names are distinct) yields
    a DTO in which every non-ignored field holds the transformed value of the
    model property it maps to, and every other property keeps the value of a
    freshly constructed instance.
   */
  lemma AssembleResult(m: BeanView, cls: DtoClass)
    requires DistinctNames(cls.fields)
    requires AssembleSpec(Some(m), Some(cls)).Success? && AssembleSpec(Some(m), Some(cls)).value.Some?
    ensures cls.isDataTransferObject && cls.constructible
    ensures var d := AssembleSpec(Some(m), Some(cls)).value.value;
            SameShape(d, cls.blank)
            && (forall f :: f in cls.fields && !f.ignored ==> f.name in d.props && FieldValue(m, f) == Some(d.props[f.name]))
            && (forall n :: n in cls.blank.props && n !in CopiedNames(cls.fields) ==> n in d.props && d.props[n] == cls.blank.props[n])
  {
    var ps := Resolve(Some(cls)).value;
    ResolvedTargets(cls);
    ResolvedTargetsDistinct(cls);
    CopyAllResult(m, cls.blank, ps);
    var d := AssembleSpec(Some(m), Some(cls)).value.value;
    forall f | f in cls.fields && !f.ignored
      ensures f.name in d.props && FieldValue(m, f) == Some(d.props[f.name])
    {
      ResolvedParamFor(cls, f);
      var k :| 0 <= k < |ps| && Build(Some(f)) == Success(ps[k]);
      ReadTransformedOfBuild(m, f);
    }
  }

  /** Whether a non-ignored field copies cleanly from model `m` into a DTO in state `d`. */
  predicate FieldCopyOk(m: BeanView, d: BeanView, f: FieldDecl)
  {
    FieldValue(m, f).Some? && CanWrite(d, f.name, FieldValue(m, f).value)
  }

  lemma ParamOkIffFieldOk(m: BeanView, d: BeanView, f: FieldDecl, p: TransferParams)
    requires Build(Some(f)) == Success(p)
    ensures ModelToDtoOk(m, d, p) <==> FieldCopyOk(m, d, f)
  {
    ReadTransformedOfBuild(m, f);
  }

  /** Every field of a list copies cleanly from model `m` into a DTO in state `d`. */
  ghost predicate FieldsCopyOk(m: BeanView, d: BeanView, fs: seq<FieldDecl>)
  {
    forall k :: 0 <= k < |fs| ==> FieldCopyOk(m, d, fs[k])
  }

  /** Quantifying over the kept fields is quantifying over the fields without `@Ignore`. */
  lemma FieldsOkViaNonIgnored(m: BeanView, d: BeanView, fields: seq<FieldDecl>)
    ensures FieldsCopyOk(m, d, NonIgnored(fields)) <==>
            (forall f :: f in fields && !f.ignored ==> FieldCopyOk(m, d, f))
  {
    var ni := NonIgnored(fields);
    NonIgnoredMembers(fields);
    if FieldsCopyOk(m, d, ni) {
      forall f | f in fields && !f.ignored ensures FieldCopyOk(m, d, f) {
        assert f in ni;
        var k :| 0 <= k < |ni| && ni[k] == f;
      }
    }
    if forall f :: f in fields && !f.ignored ==> FieldCopyOk(m, d, f) {
      forall k | 0 <= k < |ni| ensures FieldCopyOk(m, d, ni[k]) {
        assert ni[k] in ni;
      }
    }
  }

  /** Every parameter of a resolved class copies cleanly exactly when every non-ignored field does. */
  lemma ParamsOkIffFieldsOk(m: BeanView, cls: DtoClass)
    requires cls.isDataTransferObject && Resolve(Some(cls)).Success?
    ensures var ps := Resolve(Some(cls)).value;
            (forall k :: 0 <= k < |ps| ==> ModelToDtoOk(m, cls.blank, ps[k])) <==>
            (forall f :: f in cls.fields && !f.ignored ==> FieldCopyOk(m, cls.blank, f))
  {
    var fields := cls.fields;
    var ps := Resolve(Some(cls)).value;
    var ni := NonIgnored(fields);
    ResolveShape(fields, []);
    forall k | 0 <= k < |ps|
      ensures ModelToDtoOk(m, cls.blank, ps[k]) <==> FieldCopyOk(m, cls.blank, ni[k])
    {
      ParamOkIffFieldOk(m, cls.blank, ni[k], ps[k]);
    }
    FieldsOkViaNonIgnored(m, cls.blank, fields);
    assert FieldsCopyOk(m, cls.blank, ni) <==> forall k :: 0 <= k < |ps| ==> ModelToDtoOk(m, cls.blank, ps[k]);
  }

  /**
    `assemble` of a non-null model into a `@DataTransferObject` class succeeds
    exactly when every non-ignored field's transformer can be created and
    either there is nothing to copy, or the DTO can be instantiated and every
    non-ignored field can be read from the model, transformed without an
    exception and written to the DTO.
   */
  lemma AssembleSucceedsIff(m: BeanView, cls: DtoClass)
    requires cls.isDataTransferObject
    ensures AssembleSpec(Some(m), Some(cls)).Success? <==>
            (forall f :: f in cls.fields && !f.ignored ==> Instantiable(DeclaredTransformer(f)))
            && ((forall f :: f in cls.fields ==> f.ignored)
                || (cls.constructible
                    && forall f :: f in cls.fields && !f.ignored ==> FieldCopyOk(m, cls.blank, f)))
  {
    var fields := cls.fields;
    ResolveSucceedsIff(fields, []);
    assert (forall k :: 0 <= k < |fields| && !fields[k].ignored ==> Instantiable(DeclaredTransformer(fields[k])))
       <==> (forall f :: f in fields && !f.ignored ==> Instantiable(DeclaredTransformer(f)));
    if Resolve(Some(cls)).Success? {
      var ps := Resolve(Some(cls)).value;
      var ni := NonIgnored(fields);
      ResolveShape(fields, []);
      NonIgnoredMembers(fields);
      if ni == [] {
        assert forall f :: f in fields ==> f.ignored;
      } else {
        assert ni[0] in ni;
        assert ps != [];
        if cls.constructible {
          CopyAllSucceedsIff(m, cls.blank, ps);
          ParamsOkIffFieldsOk(m, cls);
        }
      }
    }
  }

  method InstantiateDto(cls: Option<DtoClass>) returns (r: Result<Bean?, Error>)
    ensures cls.None? ==> r == Failure(NullPointer)
    ensures cls.Some? ==> r.Success? && ViewOf(r.value) == NewInstance(cls.value)
    ensures r.Success? && r.value != null ==> fresh(r.value)
  {
    if cls.None? {
      return Failure(NullPointer);
    }
    if cls.value.constructible {
      var blank := cls.value.blank;
      var dto := new Bean(blank.props, blank.readFaults, blank.writeFaults, blank.setterTypes);
      return Success(dto);
    }
    // The instantiation failure is created and dropped: the caller receives null.
    return Success(null);
  }

  method Assemble(model: Bean?, cls: Option<DtoClass>) returns (r: Result<Bean?, Error>)
    ensures r.Success? ==> AssembleSpec(ViewOf(model), cls) == Success(ViewOf(r.value))
    ensures r.Success? && r.value != null ==> fresh(r.value)
    ensures r.Failure? ==> AssembleSpec(ViewOf(model), cls) == Failure(r.error)
  {
    if model == null {
      return Failure(NullPointer);
    }
    var instance := InstantiateDto(cls);
    if instance.Failure? {
      return Failure(instance.error);
    }
    var dto := instance.value;
    var params := LoadPropertyTransferParams(cls);
    if params.Failure? {
      return Failure(params.error);
    }
    var ps := params.value;
    var i := 0;
    while i < |ps|
      invariant 0 <= i <= |ps|
      invariant dto != null ==> fresh(dto)
      invariant AssembleSpec(ViewOf(model), cls) == CopyAll(model.View(), ViewOf(dto), ps[i..])
    {
      assert ps[i..][0] == ps[i] && ps[i..][1..] == ps[i + 1..];
      var failure := CopyPropertyFromModelToDto(model, dto, Some(ps[i]));
      if failure.Some? {
        return Failure(failure.value);
      }
      i := i + 1;
    }
    assert ps[i..] == [];
    return Success(dto);
  }

  method AssembleAll(models: Option<seq<Bean?>>, cls: Option<DtoClass>) returns (r: Result<seq<Bean?>, Error>)
    ensures models.None? ==> r == Failure(NullPointer)
    ensures models == Some([]) ==> r == Success([])
    ensures r.Success? ==> models.Some? && |r.value| == |models.value|
    ensures r.Success? ==> forall i :: 0 <= i < |r.value| ==>
              AssembleSpec(ViewOf(models.value[i]), cls) == Success(ViewOf(r.value[i]))
    ensures r.Success? ==> forall i :: 0 <= i < |r.value| && r.value[i] != null ==> fresh(r.value[i])
    ensures r.Success? ==> forall i, j :: 0 <= i < j < |r.value| && r.value[i] != null ==> r.value[i] != r.value[j]
    ensures r.Failure? && models.Some? ==>
              exists i :: 0 <= i < |models.value|
                && AssembleSpec(ViewOf(models.value[i]), cls) == Failure(r.error)
                && forall j :: 0 <= j < i ==> AssembleSpec(ViewOf(models.value[j]), cls).Success?
  {
    if models.None? {
      return Failure(NullPointer);
    }
    var ms := models.value;
    var dtos: seq<Bean?> := [];
    var i := 0;
    while i < |ms|
      invariant 0 <= i <= |ms| && |dtos| == i
      invariant forall j :: 0 <= j < i ==> AssembleSpec(ViewOf(ms[j]), cls) == Success(ViewOf(dtos[j]))
      invariant forall j :: 0 <= j < i && dtos[j] != null ==> fresh(dtos[j])
      invariant forall j, k :: 0 <= j < k < i && dtos[j] != null ==> dtos[j] != dtos[k]
    {
      var dto := Assemble(ms[i], cls);
      if dto.Failure? {
        return Failure(dto.error);
      }
      dtos := dtos + [dto.value];
      i := i + 1;
    }
    return Success(dtos);
  }
}
