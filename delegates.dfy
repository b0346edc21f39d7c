/** Input-change delegates: the closure-based reporter and the type-erased
    wrapper that the input sources keep in their multicast lists. */
module Delegates {
  import opened Common

  /** What a reporter's client closure receives for one notification: the
      value, and the timestamp when the closure takes one. */
  datatype Report<V> = Report(value: V, timestamp: Option<Time>)

  /** `InputValueChangedReporter`: a class wrapping a client closure.
      Its equality is reference identity. */
  class InputValueChangedReporter<V> {
    /** Whether the client closure takes the timestamp as well as the
        value. */
    const takesTimestamp: bool

    /** `init(reportNewInput:)` with a closure of value and timestamp. */
    constructor WithTimestamp()
      ensures takesTimestamp
    {
      takesTimestamp := true;
    }

    /** `init(reportNewInput:)` with a closure of the value only; the stored
        closure drops the timestamp. */
    constructor ValueOnly()
      ensures !takesTimestamp
    {
      takesTimestamp := false;
    }

    /** `newInputValue`: call the stored closure. */
    function NewInputValue(v: V, t: Time): (r: Report<V>)
      ensures r.value == v
      ensures r.timestamp.Some? <==> takesTimestamp
    {
      Report(v, if takesTimestamp then Some(t) else None)
    }
  }

  /** A reporter built with the timestamp closure passes the timestamp on
      unchanged; one built with the value-only closure reports the same
      whatever the timestamp. */
  lemma ReporterPassesTimestamp<V>(r: InputValueChangedReporter<V>, v: V, t1: Time, t2: Time)
    ensures r.takesTimestamp ==> (r.NewInputValue(v, t1) == r.NewInputValue(v, t2) <==> t1 == t2)
    ensures !r.takesTimestamp ==> r.NewInputValue(v, t1) == r.NewInputValue(v, t2)
  {
  }

  /** `==` on reporters: the same instance. */
  predicate SameReporter<V>(lhs: InputValueChangedReporter<V>, rhs: InputValueChangedReporter<V>) {
    lhs == rhs
  }

  /** The box of an erased delegate: a reporter, or an instance of a client
      delegate class, named by its type and compared by the client's own
      `==`, which is modelled as equality of a key. */
  datatype DelegateBox<V> =
    | ReporterBox(reporter: InputValueChangedReporter<V>)
    | ClientBox(typeName: string, key: int)

  /** `AnyInputValueChangedDelegate`. The forced cast of the new box to the
      list's value type is a type equality that Dafny's typing enforces. */
  datatype AnyInputValueChangedDelegate<V> = AnyInputValueChangedDelegate(box: DelegateBox<V>)

  /** `init(_:)` of a concrete delegate: a new box around it. */
  function Erase<V>(base: DelegateBox<V>): (d: AnyInputValueChangedDelegate<V>)
    ensures d.box == base
  {
    AnyInputValueChangedDelegate(base)
  }

  /** `init(_ any:)`: the new wrapper shares the existing box. */
  function Rewrap<V>(any: AnyInputValueChangedDelegate<V>): (d: AnyInputValueChangedDelegate<V>)
    ensures d.box == any.box
  {
    AnyInputValueChangedDelegate(any.box)
  }

  /** The box's `equals`: the right-hand box must hold a delegate of the
      same concrete type, and then the two bases are compared with `==`. */
  function Equals<V>(lhs: AnyInputValueChangedDelegate<V>, rhs: AnyInputValueChangedDelegate<V>): (b: bool)
    ensures b ==> lhs.box.ReporterBox? == rhs.box.ReporterBox?
    ensures b <==> lhs.box == rhs.box
  {
    match lhs.box
    case ReporterBox(r) => rhs.box.ReporterBox? && SameReporter(r, rhs.box.reporter)
    case ClientBox(name, key) => rhs.box.ClientBox? && rhs.box.typeName == name && rhs.box.key == key
  }

  /** Erased delegates of different concrete types are never equal. */
  lemma DifferentConcreteTypesNeverEqual<V>(lhs: AnyInputValueChangedDelegate<V>, rhs: AnyInputValueChangedDelegate<V>)
    requires lhs.box.ReporterBox? != rhs.box.ReporterBox?
      || (lhs.box.ClientBox? && rhs.box.ClientBox? && lhs.box.typeName != rhs.box.typeName)
    ensures !Equals(lhs, rhs)
  {
  }

  /** `==` on erased delegates is exactly value equality of the model, so
      the multicast list's `==` on them is Dafny's equality: two wrappers of
      reporters are equal iff they wrap the same reporter instance, and
      re-wrapping keeps equality. */
  lemma EqualsIsIdentityOfBase<V>(lhs: AnyInputValueChangedDelegate<V>, rhs: AnyInputValueChangedDelegate<V>)
    ensures Equals(lhs, rhs) <==> lhs == rhs
    ensures lhs.box.ReporterBox? && rhs.box.ReporterBox? ==>
      (Equals(lhs, rhs) <==> lhs.box.reporter == rhs.box.reporter)
    ensures Equals(Rewrap(lhs), lhs)
  {
  }

  /** One notification as its receiver gets it. */
  datatype Delivery<V> =
    | ToReporter(reporter: InputValueChangedReporter<V>, report: Report<V>)
    | ToClient(typeName: string, key: int, value: V, timestamp: Time)

  /** `newInputValue` of the erased delegate: forwarded once to the base. */
  function NewInputValue<V>(any: AnyInputValueChangedDelegate<V>, v: V, t: Time): (d: Delivery<V>)
    ensures any.box.ReporterBox? <==> d.ToReporter?
  {
    match any.box
    case ReporterBox(r) => ToReporter(r, r.NewInputValue(v, t))
    case ClientBox(name, key) => ToClient(name, key, v, t)
  }

  /** The value reaches the base delegate unchanged, and so does the
      timestamp, unless a value-only reporter closure drops it. */
  lemma ForwardsValueAndTimestamp<V>(any: AnyInputValueChangedDelegate<V>, v: V, t: Time)
    ensures var d := NewInputValue(any, v, t);
      match d
      case ToReporter(r, report) =>
        r == any.box.reporter && report.value == v && (r.takesTimestamp ==> report.timestamp == Some(t))
      case ToClient(name, key, value, timestamp) =>
        name == any.box.typeName && key == any.box.key && value == v && timestamp == t
  {
  }
}
