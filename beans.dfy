/**
  Objects seen as property bags, and the partial property accessor the
  assembler uses to read and write them by name.

  The source delegates to a reflective bean library; here an object is a map
  from property names to values, plus the names whose getter or setter fails
  (inaccessible or throwing). A name absent from the map has no accessor.
 */
module Beans {
  import opened Types

  /**
    The parameter type of a property's setter. A boxed type takes null or a
    value of its kind, a primitive type only a value of its kind, and `Object`
    takes anything.
   */
  datatype PropType = ObjectType | IntegerType | StringType | BooleanType | PrimitiveInt | PrimitiveBoolean

  /** Whether a setter with parameter type `t` accepts `v` as its argument. */
  predicate Accepts(t: PropType, v: Value)
  {
    match t
    case ObjectType => true
    case IntegerType => v.Null? || v.Int?
    case StringType => v.Null? || v.Str?
    case BooleanType => v.Null? || v.Bool?
    case PrimitiveInt => v.Int?
    case PrimitiveBoolean => v.Bool?
  }

  /**
    The observable state of one object: its properties, its failing accessors
    and its setters' parameter types (a property with no entry takes `Object`).
   */
  datatype BeanView = BeanView(
    props: map<string, Value>,
    readFaults: map<string, AccessFailure>,
    writeFaults: map<string, AccessFailure>,
    setterTypes: map<string, PropType>)

  /** The parameter type of the setter of property `name`. */
  function SetterType(b: BeanView, name: string): PropType
  {
    if name in b.setterTypes then b.setterTypes[name] else ObjectType
  }

  /** Property `name` exists and its getter works. */
  predicate CanRead(b: BeanView, name: string)
  {
    name in b.props && name !in b.readFaults
  }

  /** Property `name` exists, its setter works and it accepts `v`. */
  predicate CanWrite(b: BeanView, name: string, v: Value)
  {
    name in b.props && name !in b.writeFaults && Accepts(SetterType(b, name), v)
  }

  /**
    Why a write failed: one of the accessor's checked exceptions, or the
    setter refusing an argument of the wrong type (an unchecked
    `IllegalArgumentException` raised by the reflective call).
   */
  datatype WriteFailure = Fault(cause: AccessFailure) | Rejected

  /** Reading property `name`: fails when the name has no getter or its getter fails. */
  function Get(b: BeanView, name: string): (r: Result<Value, AccessFailure>)
    ensures r.Success? <==> CanRead(b, name)
    ensures r.Success? ==> r.value == b.props[name]
    ensures name in b.readFaults ==> r == Failure(b.readFaults[name])
    ensures r.Failure? && name !in b.readFaults ==> r.error == NoSuchMethod
  {
    if name in b.readFaults then Failure(b.readFaults[name])
    else if name in b.props then Success(b.props[name])
    else Failure(NoSuchMethod)
  }

  /**
    Writing property `name`. A missing or unreachable setter fails first; the
    argument is checked against the setter's parameter type next; only then
    does the setter run, and a throwing setter fails last.
   */
  function Put(b: BeanView, name: string, v: Value): (r: Result<BeanView, WriteFailure>)
    ensures r.Success? <==> CanWrite(b, name, v)
    ensures r.Success? ==> r.value == b.(props := b.props[name := v])
    ensures r == Failure(Rejected) <==>
              name in b.props && !Accepts(SetterType(b, name), v)
              && (name !in b.writeFaults || b.writeFaults[name] == InvocationTarget)
    ensures r.Failure? && name !in b.writeFaults && name !in b.props ==> r.error == Fault(NoSuchMethod)
    ensures name in b.writeFaults && b.writeFaults[name] != InvocationTarget ==> r == Failure(Fault(b.writeFaults[name]))
    ensures name in b.props && Accepts(SetterType(b, name), v) && name in b.writeFaults ==>
              r == Failure(Fault(b.writeFaults[name]))
  {
    if name in b.writeFaults && b.writeFaults[name] != InvocationTarget then Failure(Fault(b.writeFaults[name]))
    else if name !in b.props then Failure(Fault(NoSuchMethod))
    else if !Accepts(SetterType(b, name), v) then Failure(Rejected)
    else if name in b.writeFaults then Failure(Fault(InvocationTarget))
    else Success(b.(props := b.props[name := v]))
  }

  /** A model or DTO instance whose properties are updated in place. */
  class Bean {
    var props: map<string, Value>
    const readFaults: map<string, AccessFailure>
    const writeFaults: map<string, AccessFailure>
    const setterTypes: map<string, PropType>

    constructor (props: map<string, Value>, readFaults: map<string, AccessFailure>,
                 writeFaults: map<string, AccessFailure>, setterTypes: map<string, PropType>)
      ensures View() == BeanView(props, readFaults, writeFaults, setterTypes)
    {
      this.props := props;
      this.readFaults := readFaults;
      this.writeFaults := writeFaults;
      this.setterTypes := setterTypes;
    }

    function View(): BeanView
      reads this
    {
      BeanView(props, readFaults, writeFaults, setterTypes)
    }

    /** Sets one property in place; on failure nothing changes. */
    method SetProperty(name: string, v: Value) returns (failure: Option<WriteFailure>)
      modifies this
      ensures match Put(old(View()), name, v)
              case Success(b) => failure == None && View() == b
              case Failure(e) => failure == Some(e) && props == old(props)
    {
      var accepted := Accepts(if name in setterTypes then setterTypes[name] else ObjectType, v);
      if name in writeFaults && writeFaults[name] != InvocationTarget {
        failure := Some(Fault(writeFaults[name]));
      } else if name !in props {
        failure := Some(Fault(NoSuchMethod));
      } else if !accepted {
        failure := Some(Rejected);
      } else if name in writeFaults {
        failure := Some(Fault(InvocationTarget));
      } else {
        props := props[name := v];
        failure := None;
      }
    }
  }

  /** The view of a possibly-null reference. */
  function ViewOf(b: Bean?): (r: Option<BeanView>)
    reads b
    ensures r.None? <==> b == null
  {
    if b == null then None else Some(b.View())
  }
}
