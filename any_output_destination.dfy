/** `AnyGrovePiOutputDestination`: the type-erased wrapper around an output
    destination. It keeps the destination in a box, forwards every call to
    it, and compares two wrappers by first casting the right-hand box to
    the concrete type of the left-hand one. */
module AnyOutputDestination {
  import opened Common
  import opened Transport
  import opened Calls
  import opened PortLabels
  import opened ArduinoBus
  import Display

  /** The box around a concrete destination. */
  datatype OutputDestinationBox = OutputDestinationBox(base: ArduinoOutputDestination)

  datatype AnyGrovePiOutputDestination = AnyGrovePiOutputDestination(box: OutputDestinationBox) {
    /** `portLabel`, read from the base through the box. */
    function PortLabel(): (l: PortLabel)
      ensures l == box.base.connection.portLabel
    {
      box.base.connection.portLabel
    }

    /** `outputUnit`, read from the base through the box. */
    function OutputUnit(): (u: OutputUnit)
      ensures u == box.base.outputUnit
    {
      box.base.outputUnit
    }
  }

  /** `init(_ base:)`: a new box around the destination. */
  function Wrap(base: ArduinoOutputDestination): (d: AnyGrovePiOutputDestination)
    ensures d.box.base == base
    ensures d.PortLabel() == base.connection.portLabel && d.OutputUnit() == base.outputUnit
  {
    AnyGrovePiOutputDestination(OutputDestinationBox(base))
  }

  /** `init(_ any:)`: the new wrapper shares the box of the given one. */
  function Rewrap(any: AnyGrovePiOutputDestination): (d: AnyGrovePiOutputDestination)
    ensures d.box == any.box
  {
    AnyGrovePiOutputDestination(any.box)
  }

  /** The concrete destination type is generic over the port label enum,
      the unit type and the output protocol; two bases have the same
      concrete type when all three agree. */
  predicate SameConcreteType(lhs: ArduinoOutputDestination, rhs: ArduinoOutputDestination) {
    SameKind(lhs.connection.portLabel, rhs.connection.portLabel)
    && lhs.outputUnit.typeName == rhs.outputUnit.typeName
    && lhs.outputProtocol == rhs.outputProtocol
  }

  /** Both labels come from the same label enumeration. */
  predicate SameKind(l: PortLabel, m: PortLabel) {
    l.Type() == m.Type()
  }

  /** The box's `equals`: false unless the right-hand box holds a base of
      the same concrete type, and then the bases' `==`. */
  function Equals(lhs: AnyGrovePiOutputDestination, rhs: AnyGrovePiOutputDestination): (b: bool)
    ensures b ==> lhs.box.base.outputProtocol == rhs.box.base.outputProtocol
    ensures b ==> lhs.PortLabel() == rhs.PortLabel() && lhs.OutputUnit() == rhs.OutputUnit()
  {
    SameConcreteType(lhs.box.base, rhs.box.base) && SameOutputDestination(lhs.box.base, rhs.box.base)
  }

  /** Wrappers around destinations of different concrete types are never
      equal, whatever their labels and units. */
  lemma DifferentConcreteTypesNeverEqual(lhs: AnyGrovePiOutputDestination, rhs: AnyGrovePiOutputDestination)
    requires lhs.box.base.outputProtocol != rhs.box.base.outputProtocol
    ensures !Equals(lhs, rhs)
  {
  }

  /** For bases of the same output protocol, `==` is base equality: an
      equal port label and an equal unit. It is an equivalence, and a
      re-wrapped destination equals the original. */
  lemma EqualsIsBaseEquality(lhs: AnyGrovePiOutputDestination, rhs: AnyGrovePiOutputDestination, third: AnyGrovePiOutputDestination)
    ensures lhs.box.base.outputProtocol == rhs.box.base.outputProtocol ==>
      (Equals(lhs, rhs) <==> lhs.PortLabel() == rhs.PortLabel() && lhs.OutputUnit() == rhs.OutputUnit())
    ensures Equals(lhs, lhs) && Equals(Rewrap(lhs), lhs)
    ensures Equals(lhs, rhs) ==> Equals(rhs, lhs)
    ensures Equals(lhs, rhs) && Equals(rhs, third) ==> Equals(lhs, third)
  {
  }

  /** Two wrappers of the same base are equal. */
  lemma WrapsOfOneBaseAreEqual(base: ArduinoOutputDestination)
    ensures Equals(Wrap(base), Wrap(base))
  {
  }

  /** `writeValue`: forwarded once to the base, with the same value; its
      error, if any, is the wrapper's. */
  method WriteValue(any: AnyGrovePiOutputDestination, value: OutputValue, o: Oracle<()>, direction: Oracle<()>, calls: CallOutcomes) returns (outcome: Outcome)
    requires Accepts(any.box.base.outputProtocol, value)
    requires any.box.base.connection.CheckConnectionIsOK().Ok? && value.Text? ==>
      !Display.Traps(value.displayText, calls)
    modifies any.box.base.connection.arduinoBus
    ensures var c := any.box.base.connection;
      c.CheckConnectionIsOK().Err? ==>
        outcome == Fail(c.CheckConnectionIsOK().error)
        && (c.arduinoBus != null ==> c.arduinoBus.trace == old(c.arduinoBus.trace))
    ensures var c := any.box.base.connection;
      c.CheckConnectionIsOK().Ok? ==>
        c.arduinoBus.portMap == old(c.arduinoBus.portMap)
        && c.arduinoBus.trace == old(c.arduinoBus.trace) + any.box.base.WriteOps(value, o, direction, calls)
        && outcome == any.box.base.WriteOutcome(value, o, direction, calls)
  {
    outcome := any.box.base.WriteValue(value, o, direction, calls);
  }

  /** `connect`: forwarded once to the base's connection. */
  method Connect(any: AnyGrovePiOutputDestination, o: Oracle<()>) returns (outcome: Outcome)
    modifies any.box.base.connection, any.box.base.connection.arduinoBus
    ensures var c := any.box.base.connection;
      c.arduinoBus == old(c.arduinoBus)
      && (c.arduinoBus == null ==> outcome == Fail(DisconnectedBus) && c.isConnected == old(c.isConnected))
      && (c.arduinoBus != null ==>
            c.isConnected && c.arduinoBus.portMap == old(c.arduinoBus.portMap)
            && c.arduinoBus.trace == old(c.arduinoBus.trace)
              + (if old(c.isConnected) then [] else [BlockWrite(SetIOModeFrame(c.portLabel.Id(), c.ioMode.RawValue()))])
            && outcome == (if old(c.isConnected) then Pass else AsOutcome(Retried(o))))
  {
    outcome := any.box.base.connection.Connect(o);
  }

  /** `disconnect`: forwarded once to the base's connection. */
  method Disconnect(any: AnyGrovePiOutputDestination) returns (outcome: Outcome)
    modifies any.box.base.connection
    ensures var c := any.box.base.connection;
      c.arduinoBus == old(c.arduinoBus)
      && (c.arduinoBus == null ==> outcome == Fail(DisconnectedBus) && c.isConnected == old(c.isConnected))
      && (c.arduinoBus != null ==> outcome.Pass? && !c.isConnected)
  {
    outcome := any.box.base.connection.Disconnect();
  }
}
