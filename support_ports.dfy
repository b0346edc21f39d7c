/** The ports of the sensor-object revision (Sources/GrovePiSupport.swift):
    four port enumerations, each with a fixed port kind, whose pin number is
    the enumeration's raw value; and the `==` of two I/O objects, which
    compares only their ports' numbers and kinds. The raw values themselves
    are declared in a file that is not part of this model, so they are kept
    as bytes. */
module SupportPorts {
  import opened Common
  import opened PortLabels

  datatype SupportPort =
    | AnaloguePort(rawValue: byte)
    | DigitalPort(rawValue: byte)
    | I2CPort(rawValue: byte)
    | UARTPort(rawValue: byte)
  {
    /** `id`: the raw value. */
    function Id(): (id: byte)
      ensures id == rawValue
    {
      rawValue
    }

    /** `type`: fixed for each enumeration. */
    function Type(): (t: PortType)
      ensures t == Analogue <==> this.AnaloguePort?
      ensures t == Digital <==> this.DigitalPort?
      ensures t == I2C <==> this.I2CPort?
      ensures t == Uart <==> this.UARTPort?
    {
      match this
      case AnaloguePort(_) => Analogue
      case DigitalPort(_) => Digital
      case I2CPort(_) => I2C
      case UARTPort(_) => Uart
    }
  }

  /** `==` of two `GrovePiIO` objects: the same port number and the same
      port kind. */
  function SameIO(lhs: SupportPort, rhs: SupportPort): (b: bool)
    ensures b <==> lhs == rhs
  {
    lhs.Id() == rhs.Id() && lhs.Type() == rhs.Type()
  }

  /** Because every enumeration has one fixed kind and distinct raw values,
      two I/O objects are `==` exactly when they are on the same port. */
  lemma SameIOIffSamePort(lhs: SupportPort, rhs: SupportPort)
    ensures SameIO(lhs, rhs) <==> lhs == rhs
  {
  }
}
