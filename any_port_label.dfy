/** The type-erased port label `AnyGrovePiPortLabel`, the key of the bus's
    port dictionary and of the scanner's items. */
module AnyPortLabel {
  import opened Common
  import opened PortLabels

  /** An erased label. Its box holds one base label of a concrete label
      enumeration; an erased label is never the base of another box. */
  datatype AnyGrovePiPortLabel = AnyGrovePiPortLabel(box: PortLabel) {
    /** `type`, `id` and `description` are read from the box's base. */
    function Type(): PortType { box.Type() }
    function Id(): byte { box.Id() }
    function Description(): string { box.Description() }
    /** The base label's hash, which for these raw-value enumerations is the
        hash of the raw value (the description). */
    function HashKey(): string { box.Description() }
  }

  /** The argument of `init(_:)`: a label of a concrete enumeration, or a
      label that is already erased. */
  datatype LabelArgument = Concrete(concrete: PortLabel) | Erased(erased: AnyGrovePiPortLabel)

  /** `init(_:)`: an erased argument hands over its own box; any other label
      is put in a new box. */
  function Erase(base: LabelArgument): (r: AnyGrovePiPortLabel)
    ensures base.Concrete? ==> r.box == base.concrete
    ensures base.Erased? ==> r.box == base.erased.box
  {
    match base
    case Concrete(l) => AnyGrovePiPortLabel(l)
    case Erased(a) => AnyGrovePiPortLabel(a.box)
  }

  /** The box's `equals`: the right-hand base must first cast to the
      left-hand base's concrete type, and only then are the bases compared. */
  predicate BoxEquals(lhs: PortLabel, rhs: PortLabel) {
    match lhs
    case AnalogueLabel(a) => (match rhs case AnalogueLabel(b) => a == b case _ => false)
    case DigitalLabel(d) => (match rhs case DigitalLabel(e) => d == e case _ => false)
    case I2CLabel(i) => (match rhs case I2CLabel(j) => i == j case _ => false)
    case UARTLabel(u) => (match rhs case UARTLabel(v) => u == v case _ => false)
  }

  /** `==` on erased labels: equal labels come from the same enumeration
      and are the same label of it. */
  function Equals(lhs: AnyGrovePiPortLabel, rhs: AnyGrovePiPortLabel): (b: bool)
    ensures b ==> lhs.Type() == rhs.Type() && lhs.Id() == rhs.Id()
    ensures b <==> lhs.box == rhs.box
  {
    BoxEquals(lhs.box, rhs.box)
  }

  /** Re-erasing an erased label reuses its box: no label is boxed twice,
      and the re-erased label is equal to the original. */
  lemma EraseNeverNests(l: PortLabel)
    ensures Erase(Erased(Erase(Concrete(l)))) == Erase(Concrete(l))
    ensures Equals(Erase(Erased(Erase(Concrete(l)))), Erase(Concrete(l)))
  {
  }

  /** Type, id, description and hash are the base label's own. */
  lemma ForwardsBase(l: PortLabel)
    ensures Erase(Concrete(l)).Type() == l.Type()
    ensures Erase(Concrete(l)).Id() == l.Id()
    ensures Erase(Concrete(l)).Description() == l.Description()
    ensures Erase(Concrete(l)).HashKey() == EquatablePortLabel(l).HashKey()
  {
  }

  /** Labels of different concrete enumerations are never equal. */
  lemma DifferentConcreteTypesNeverEqual(lhs: AnyGrovePiPortLabel, rhs: AnyGrovePiPortLabel)
    requires lhs.Type() != rhs.Type()
    ensures !Equals(lhs, rhs)
  {
  }

  /** For labels of the same concrete enumeration, `==` is the base labels'
      equality; over all erased labels it is exactly value equality, so a
      dictionary keyed by erased labels is a map from these values. */
  lemma EqualsIsBaseEquality(lhs: AnyGrovePiPortLabel, rhs: AnyGrovePiPortLabel)
    ensures Equals(lhs, rhs) <==> lhs.box == rhs.box
    ensures Equals(lhs, rhs) <==> lhs == rhs
  {
  }

  /** Erased equality agrees with the (kind, id) equality of
      EquatablePortLabel, and equal erased labels hash alike. */
  lemma EqualsAgreesWithEquatable(lhs: AnyGrovePiPortLabel, rhs: AnyGrovePiPortLabel)
    ensures Equals(lhs, rhs) <==> Equal(EquatablePortLabel(lhs.box), EquatablePortLabel(rhs.box))
    ensures Equals(lhs, rhs) ==> lhs.HashKey() == rhs.HashKey()
  {
    EqualIffSameLabel(EquatablePortLabel(lhs.box), EquatablePortLabel(rhs.box));
  }
}
