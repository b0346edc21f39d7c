/** Port identity: the kind of a GrovePi port, the four label enumerations
    and the (kind, id) equality used to key ports. */
module PortLabels {
  import opened Common

  datatype PortType = Analogue | Digital | I2C | Uart {
    function Description(): string {
      match this
      case Analogue => "analogue"
      case Digital => "digital"
      case I2C => "i2c"
      case Uart => "uart"
    }
  }

  datatype AnaloguePortLabel = A0 | A1 | A2 {
    function Id(): byte {
      match this
      case A0 => 0 case A1 => 1 case A2 => 2
    }
    function Description(): string {
      match this
      case A0 => "A0" case A1 => "A1" case A2 => "A2"
    }
  }

  datatype DigitalPortLabel = D2 | D3 | D4 | D5 | D6 | D7 | D8 {
    function Id(): byte {
      match this
      case D2 => 2 case D3 => 3 case D4 => 4 case D5 => 5
      case D6 => 6 case D7 => 7 case D8 => 8
    }
    function Description(): string {
      match this
      case D2 => "D2" case D3 => "D3" case D4 => "D4" case D5 => "D5"
      case D6 => "D6" case D7 => "D7" case D8 => "D8"
    }
  }

  datatype I2CPortLabel = I2C_1 | I2C_2 | I2C_3 {
    function Id(): byte {
      match this
      case I2C_1 => 1 case I2C_2 => 2 case I2C_3 => 3
    }
    function Description(): string {
      match this
      case I2C_1 => "I2C-1" case I2C_2 => "I2C-2" case I2C_3 => "I2C-3"
    }
  }

  datatype UARTPortLabel = RpiSerial | Serial {
    function Id(): byte {
      match this
      case RpiSerial => 1 case Serial => 2
    }
    function Description(): string {
      match this
      case RpiSerial => "RPISER" case Serial => "SERIAL"
    }
  }

  /** A value of one of the four concrete label enumerations. The constructor
      records which enumeration (the concrete Swift type) the label has. */
  datatype PortLabel =
    | AnalogueLabel(analogue: AnaloguePortLabel)
    | DigitalLabel(digital: DigitalPortLabel)
    | I2CLabel(i2c: I2CPortLabel)
    | UARTLabel(uart: UARTPortLabel)
  {
    /** Each enumeration reports one fixed kind. */
    function Type(): (t: PortType)
      ensures t == Analogue <==> this.AnalogueLabel?
      ensures t == Digital <==> this.DigitalLabel?
      ensures t == I2C <==> this.I2CLabel?
      ensures t == Uart <==> this.UARTLabel?
    {
      match this
      case AnalogueLabel(_) => Analogue
      case DigitalLabel(_) => Digital
      case I2CLabel(_) => I2C
      case UARTLabel(_) => Uart
    }

    function Id(): byte {
      match this
      case AnalogueLabel(a) => a.Id()
      case DigitalLabel(d) => d.Id()
      case I2CLabel(i) => i.Id()
      case UARTLabel(u) => u.Id()
    }

    function Description(): string {
      match this
      case AnalogueLabel(a) => a.Description()
      case DigitalLabel(d) => d.Description()
      case I2CLabel(i) => i.Description()
      case UARTLabel(u) => u.Description()
    }
  }

  /** The ids of the analogue and digital labels. */
  lemma AnalogueAndDigitalIds()
    ensures AnalogueLabel(A0).Id() == 0 && AnalogueLabel(A1).Id() == 1 && AnalogueLabel(A2).Id() == 2
    ensures forall d: DigitalPortLabel :: 2 <= d.Id() <= 8
    ensures DigitalLabel(D2).Id() == 2 && DigitalLabel(D8).Id() == 8
  {
  }

  /** The ids of the I2C and UART labels. */
  lemma I2CAndUartIds()
    ensures forall i: I2CPortLabel :: 1 <= i.Id() <= 3
    ensures I2CLabel(I2C_1).Id() == 1 && I2CLabel(I2C_3).Id() == 3
    ensures UARTLabel(RpiSerial).Id() == 1 && UARTLabel(Serial).Id() == 2
    ensures UARTLabel(RpiSerial).Type() == Uart
  {
  }

  /** Within each enumeration, the id identifies the label. */
  lemma IdInjectiveWithinEnumeration(l: PortLabel, m: PortLabel)
    requires l.Type() == m.Type() && l.Id() == m.Id()
    ensures l == m
  {
  }

  /** `EquatablePortLabel`: a label compared by kind and id only. */
  datatype EquatablePortLabel = EquatablePortLabel(portLabel: PortLabel) {
    /** Swift's hashValue is the hash of the description; the description
        string itself stands for that hash. */
    function HashKey(): string {
      portLabel.Description()
    }
  }

  /** `==` on EquatablePortLabel: same kind and same id. It ignores nothing
      that tells two labels apart, and equal labels hash alike. */
  function Equal(lhs: EquatablePortLabel, rhs: EquatablePortLabel): (b: bool)
    ensures lhs == rhs ==> b
    ensures b ==> lhs.HashKey() == rhs.HashKey()
  {
    if lhs.portLabel.Type() == rhs.portLabel.Type() && lhs.portLabel.Id() == rhs.portLabel.Id() then
      IdInjectiveWithinEnumeration(lhs.portLabel, rhs.portLabel);
      true
    else false
  }

  /** The (kind, id) equality coincides with equality of the labels
      themselves, since each (kind, id) pair belongs to one label. */
  lemma EqualIffSameLabel(lhs: EquatablePortLabel, rhs: EquatablePortLabel)
    ensures Equal(lhs, rhs) <==> lhs.portLabel == rhs.portLabel
  {
    if Equal(lhs, rhs) {
      IdInjectiveWithinEnumeration(lhs.portLabel, rhs.portLabel);
    }
  }

  /** Equal is an equivalence relation. */
  lemma EqualIsEquivalence(a: EquatablePortLabel, b: EquatablePortLabel, c: EquatablePortLabel)
    ensures Equal(a, a)
    ensures Equal(a, b) ==> Equal(b, a)
    ensures Equal(a, b) && Equal(b, c) ==> Equal(a, c)
  {
  }

  /** Labels of different kinds are never equal, even with the same id. */
  lemma DifferentKindsNeverEqual(lhs: EquatablePortLabel, rhs: EquatablePortLabel)
    requires lhs.portLabel.Type() != rhs.portLabel.Type()
    ensures !Equal(lhs, rhs)
    ensures !Equal(EquatablePortLabel(AnalogueLabel(A2)), EquatablePortLabel(DigitalLabel(D2)))
  {
  }

  /** The hash is consistent with `==`: equal labels have equal descriptions. */
  lemma HashConsistentWithEqual(lhs: EquatablePortLabel, rhs: EquatablePortLabel)
    requires Equal(lhs, rhs)
    ensures lhs.HashKey() == rhs.HashKey()
  {
    EqualIffSameLabel(lhs, rhs);
  }

  /** Descriptions are unique across all labels. */
  lemma DescriptionIdentifiesLabel(l: PortLabel, m: PortLabel)
    requires l.Description() == m.Description()
    ensures l == m
  {
  }
}
