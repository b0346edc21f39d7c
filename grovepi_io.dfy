/** The small raw-value enumerations of the first revision of the driver:
    I/O direction, the combined port enumeration, digital levels and the
    temperature/humidity module type. */
module GrovePiIO {
  import opened Common

  /** Direction of a pin, sent as the mode byte of the pin-mode command. */
  datatype IOMode = Input | Output {
    function RawValue(): (r: byte)
      ensures r == 0 <==> this.Input?
      ensures r == 1 <==> this.Output?
    {
      if this.Input? then 0 else 1
    }
  }

  /** `IOMode(rawValue:)`: the inverse of RawValue. */
  function IOModeFromRaw(raw: byte): (m: Option<IOMode>)
    ensures m.Some? <==> raw <= 1
  {
    if raw == 0 then Some(Input) else if raw == 1 then Some(Output) else None
  }

  lemma IOModeRawRoundTrip(m: IOMode, raw: byte)
    ensures IOModeFromRaw(m.RawValue()) == Some(m)
    ensures IOModeFromRaw(raw).Some? ==> IOModeFromRaw(raw).value.RawValue() == raw
  {
  }

  /** The port enumeration of the first revision: analogue ports carry the
      raw values 10, 11, 12 and digital ports their pin number. */
  datatype GrovePiPort = A0 | A1 | A2 | D2 | D3 | D4 | D5 | D6 | D7 | D8 {
    function RawValue(): byte {
      match this
      case A0 => 10 case A1 => 11 case A2 => 12
      case D2 => 2 case D3 => 3 case D4 => 4 case D5 => 5
      case D6 => 6 case D7 => 7 case D8 => 8
    }

    /** The pin number sent on the wire: the raw value modulo 10. */
    function Id(): (id: byte)
      ensures id == RawValue() % 10
      ensures id < 10
    {
      RawValue() % 10
    }
  }

  /** A0..A2 get the ids 0..2 and D2..D8 the ids 2..8. */
  lemma PortIds()
    ensures A0.Id() == 0 && A1.Id() == 1 && A2.Id() == 2
    ensures D2.Id() == 2 && D3.Id() == 3 && D4.Id() == 4 && D5.Id() == 5
    ensures D6.Id() == 6 && D7.Id() == 7 && D8.Id() == 8
  {
  }

  /** The id alone does not determine the port: A2 and D2 share id 2, and
      that is the only pair that does. */
  lemma IdSharedOnlyByA2AndD2(p: GrovePiPort, q: GrovePiPort)
    requires p != q && p.Id() == q.Id()
    ensures {p, q} == {A2, D2}
  {
  }

  /** A digital level, sent as a byte. */
  datatype DigitalValue = Low | High {
    function RawValue(): (r: byte)
      ensures r == 0 <==> this.Low?
      ensures r == 1 <==> this.High?
    {
      if this.High? then 1 else 0
    }
  }

  function DigitalValueFromRaw(raw: byte): (d: Option<DigitalValue>)
    ensures d.Some? <==> raw <= 1
  {
    if raw == 0 then Some(Low) else if raw == 1 then Some(High) else None
  }

  lemma DigitalValueRawRoundTrip(d: DigitalValue, raw: byte)
    ensures DigitalValueFromRaw(d.RawValue()) == Some(d)
    ensures DigitalValueFromRaw(raw).Some? ==> DigitalValueFromRaw(raw).value.RawValue() == raw
  {
  }

  /** The temperature/humidity module variant, sent as a parameter byte. */
  datatype DHTModuleType = Blue | White {
    function RawValue(): (r: byte)
      ensures r == 0 <==> this.Blue?
      ensures r == 1 <==> this.White?
    {
      if this.Blue? then 0 else 1
    }
  }
}
