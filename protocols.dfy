/** The default input and output adapters: which Arduino command reads or
    writes a value, how many response bytes a read returns, how the bytes
    convert to and from values, and when a new input value counts as a
    significant change. */
module Protocols {
  import opened Common
  import opened GrovePiIO
  import opened Codecs

  /** The settings an input protocol gives a read command. */
  datatype ReadSettings = ReadSettings(
    readCommand: byte,
    additionalParameters: seq<byte>,
    delay: Time,
    responseValueLength: byte)

  /** The two input protocols that use only the default adapters: 10-bit
      analogue values and digital levels. */
  datatype InputProtocol = Range1024Protocol | DigitalInputProtocol

  /** An input value: a 10-bit analogue reading held in a UInt16, or a
      digital level. */
  datatype InputValue = Range1024(range: uint16) | Level(level: DigitalValue)

  /** The default read delay after the command is 0. */
  const DefaultReadDelay: Time := 0

  /** The read settings: analogue reads use command 3 and two response
      bytes, digital reads command 1 and one response byte; neither adds
      parameters and both use the default delay. */
  function Settings(p: InputProtocol): (s: ReadSettings)
    ensures s.delay == DefaultReadDelay && s.additionalParameters == []
    ensures p.Range1024Protocol? ==> s.readCommand == 3 && s.responseValueLength == 2
    ensures p.DigitalInputProtocol? ==> s.readCommand == 1 && s.responseValueLength == 1
  {
    match p
    case Range1024Protocol => ReadSettings(3, [], DefaultReadDelay, 2)
    case DigitalInputProtocol => ReadSettings(1, [], DefaultReadDelay, 1)
  }

  /** The values a protocol produces. */
  predicate Produces(p: InputProtocol, v: InputValue) {
    p.Range1024Protocol? <==> v.Range1024?
  }

  /** `convert(valueBytes:)`: analogue responses are big-endian, digital
      responses are low exactly when the first byte is 0. Fewer bytes than
      the protocol reads would trap. */
  function Convert(p: InputProtocol, valueBytes: seq<byte>): (v: InputValue)
    requires |valueBytes| >= Settings(p).responseValueLength
    ensures Produces(p, v)
    ensures v.Range1024? ==> BigEndianBytes(v.range) == valueBytes[..2]
    ensures v.Level? ==> (v.level == Low <==> valueBytes[0] == 0)
  {
    match p
    case Range1024Protocol =>
      BigEndianRoundTrip(0, valueBytes);
      Range1024(BigEndianUInt16(valueBytes))
    case DigitalInputProtocol =>
      Level(if valueBytes[0] == 0 then Low else High)
  }

  /** The response length of each protocol is what its conversion needs and
      lies within the 1..31 bytes a read command can return. */
  lemma ResponseLengthFitsConvert(p: InputProtocol, valueBytes: seq<byte>)
    requires |valueBytes| == Settings(p).responseValueLength
    ensures 1 <= Settings(p).responseValueLength <= 31
    ensures Produces(p, Convert(p, valueBytes))
    ensures p.Range1024Protocol? ==> BigEndianBytes(Convert(p, valueBytes).range) == valueBytes
  {
  }

  function Abs(x: int): nat {
    if x < 0 then -x else x
  }

  /** `isDifferenceSignificant`: analogue values are significant when they
      differ by at least 1, digital levels when their raw values differ. */
  function IsDifferenceSignificant(p: InputProtocol, newValue: InputValue, previousValue: InputValue): (b: bool)
    requires Produces(p, newValue) && Produces(p, previousValue)
    ensures b <==> newValue != previousValue
  {
    match p
    case Range1024Protocol => Abs(newValue.range - previousValue.range) >= 1
    case DigitalInputProtocol => newValue.level.RawValue() != previousValue.level.RawValue()
  }

  /** For both protocols a difference is significant exactly when the
      values differ. */
  lemma SignificantIffDifferent(p: InputProtocol, newValue: InputValue, previousValue: InputValue)
    requires Produces(p, newValue) && Produces(p, previousValue)
    ensures IsDifferenceSignificant(p, newValue, previousValue) <==> newValue != previousValue
  {
  }

  /** How an output protocol writes a value: one Arduino command, or a
      sequence of its own. */
  datatype WriteCommandType = Arduino(command: byte) | Other

  /** 8-bit analogue outputs use command 4. */
  const Range256WriteCommand: WriteCommandType := Arduino(4)

  /** Digital outputs use command 2. */
  const DigitalWriteCommand: WriteCommandType := Arduino(2)

  /** `convert(outputValue:)` for 8-bit values: the value as its one byte. */
  function ConvertRange256(v: byte): (bs: seq<byte>)
    ensures |bs| == 1 && bs[0] == v
  {
    [v]
  }

  /** `convert(outputValue:)` for digital levels: one byte, 0 for low and 1
      for high, which reads back as the same level. */
  function ConvertDigitalOutput(d: DigitalValue): (bs: seq<byte>)
    ensures |bs| == 1 && DigitalValueFromRaw(bs[0]) == Some(d)
    ensures bs[0] == 0 <==> d == Low
  {
    [if d == Low then 0 else 1]
  }
}
