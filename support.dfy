/** The sensor-object revision of the driver (Sources/GrovePiSupport.swift):
    a bus with its own retry loops and a bus-access object, I/O objects
    bound to one port, the command codes of the board, and the wire
    decoding of analogue, ultrasonic and digital reads.

    The "indirect" calls of an I/O object hand the matching direct call to
    the bus-access object's serial queue and wait for it; with every
    critical section taken as atomic they do exactly what the direct call
    does, so only the direct calls are modelled. */
module Support {
  import opened Common
  import opened GrovePiIO
  import opened Transport
  import opened SupportPorts
  import Codecs
  import OldScanner
  import BusAccess
  import ArduinoBus

  /** The command codes of the board. */
  datatype Command =
    | DigitalRead | DigitalWrite | AnalogRead | AnalogWrite | PinMode
    | UltrasonicRangeRead | TemperatureAndHumidityRead
  {
    function RawValue(): byte {
      match this
      case DigitalRead => 1
      case DigitalWrite => 2
      case AnalogRead => 3
      case AnalogWrite => 4
      case PinMode => 5
      case UltrasonicRangeRead => 7
      case TemperatureAndHumidityRead => 40
    }
  }

  /** The codes are 1, 2, 3, 4, 5, 7 and 40, and no two commands share
      one. */
  lemma CommandCodes(c: Command, d: Command)
    ensures DigitalRead.RawValue() == 1 && DigitalWrite.RawValue() == 2 && AnalogRead.RawValue() == 3
    ensures AnalogWrite.RawValue() == 4 && PinMode.RawValue() == 5
    ensures UltrasonicRangeRead.RawValue() == 7 && TemperatureAndHumidityRead.RawValue() == 40
    ensures c.RawValue() == d.RawValue() <==> c == d
  {
  }

  /** The frame of `writeBlock(cmd, v1, v2, v3)`, with the omitted
      parameters zero. */
  function CommandFrame(command: Command, portID: byte, v2: byte := 0): (frame: Frame)
    ensures frame.command == command.RawValue() && frame.p1 == portID && frame.p2 == v2 && frame.p3 == 0
  {
    Frame(command.RawValue(), portID, v2, 0)
  }

  /** The bus of this revision: the device file, the bus-access object, and
      the trace of what was put on the bus. */
  class GrovePiArduinoBus1 {
    var fdOpen: bool
    var trace: seq<BusOp>
    const access: BusAccess.GrovePiBusAccess
    /** `delayBeforeRetryInMicroSeconds`. */
    const delayBeforeRetry: Time

    /** `init`: a new bus-access object; opening the device is `OpenIO`. */
    constructor()
      ensures !fdOpen && trace == [] && fresh(access) && access.Valid() && access.CountScans() == 0
      ensures delayBeforeRetry == 1_000
    {
      fdOpen := false;
      trace := [];
      access := new BusAccess.GrovePiBusAccess();
      delayBeforeRetry := 1_000;
    }

    /** `openIO`: open the device file and select the Arduino's address. */
    method OpenIO(openErrno: Option<int>, ioctlErrno: Option<int>) returns (outcome: Outcome)
      modifies this
      ensures trace == old(trace)
      ensures openErrno.Some? ==> outcome == Fail(OpenError(openErrno.value)) && !fdOpen
      ensures openErrno.None? && ioctlErrno.Some? ==> outcome == Fail(IOError(ioctlErrno.value)) && fdOpen
      ensures openErrno.None? && ioctlErrno.None? ==> outcome.Pass? && fdOpen
    {
      if openErrno.Some? {
        fdOpen := false;
        return Fail(OpenError(openErrno.value));
      }
      fdOpen := true;
      if ioctlErrno.Some? {
        return Fail(IOError(ioctlErrno.value));
      }
      outcome := Pass;
    }

    /** `writeBlock`: the frame [cmd, v1, v2, v3], with at most
        `retryCount` (9) retries, sleeping after each failed attempt; it
        throws exactly when every attempt fails. */
    method WriteBlock(frame: Frame, o: Oracle<()>) returns (outcome: Outcome)
      modifies this
      ensures fdOpen == old(fdOpen) && trace == old(trace) + [BlockWrite(frame)]
      ensures outcome == ArduinoBus.AsOutcome(Retried(o))
      ensures outcome.Fail? <==> forall j :: 0 <= j <= RetryCount ==> o(j).Failed?
    {
      var r, attempts, sleeps := RetrySleepingAfterFailure(o);
      trace := trace + [BlockWrite(frame)];
      outcome := ArduinoBus.AsOutcome(r);
    }

    /** `readByte`, retried the same way. */
    method ReadByte(o: Oracle<byte>) returns (r: Result<byte>)
      modifies this
      ensures fdOpen == old(fdOpen) && trace == old(trace) + [ByteRead]
      ensures r == (if Retried(o).Done? then Ok(Retried(o).value) else Err(IOError(Retried(o).errno)))
    {
      var a, attempts, sleeps := RetrySleepingAfterFailure(o);
      trace := trace + [ByteRead];
      r := if a.Done? then Ok(a.value) else Err(IOError(a.errno));
    }

    /** `readBlock`, retried the same way. */
    method ReadBlock(o: Oracle<ArduinoBus.Block>) returns (r: Result<ArduinoBus.Block>)
      modifies this
      ensures fdOpen == old(fdOpen) && trace == old(trace) + [BlockRead]
      ensures r == (if Retried(o).Done? then Ok(Retried(o).value) else Err(IOError(Retried(o).errno)))
    {
      var a, attempts, sleeps := RetrySleepingAfterFailure(o);
      trace := trace + [BlockRead];
      r := if a.Done? then Ok(a.value) else Err(IOError(a.errno));
    }
  }

  /** The static `bus` behind `getBus`. */
  class BusFactory {
    var bus: GrovePiArduinoBus1?

    constructor()
      ensures bus == null
    {
      bus := null;
    }

    /** `getBus`: the first successful call creates and opens the bus,
        later calls return that same bus; a failing open leaves none. */
    method GetBus(openErrno: Option<int>, ioctlErrno: Option<int>) returns (r: Result<GrovePiArduinoBus1>)
      modifies this
      ensures old(bus) != null ==> bus == old(bus) && r.Ok? && r.value == bus
      ensures old(bus) == null && openErrno.Some? ==> bus == null && r == Err(OpenError(openErrno.value))
      ensures old(bus) == null && openErrno.None? && ioctlErrno.Some? ==> bus == null && r == Err(IOError(ioctlErrno.value))
      ensures old(bus) == null && openErrno.None? && ioctlErrno.None? ==>
        bus != null && fresh(bus) && r.Ok? && r.value == bus && bus.fdOpen && bus.trace == []
    {
      if bus == null {
        var created := new GrovePiArduinoBus1();
        var openResult := created.OpenIO(openErrno, ioctlErrno);
        if openResult.Fail? {
          return Err(openResult.error);
        }
        bus := created;
      }
      r := Ok(bus as GrovePiArduinoBus1);
    }
  }

  /** The result of a read of two bytes from the block: write the
      command, read and ignore the status byte, read the block, and decode
      bytes 1 and 2 big-endian. */
  function TwoByteReadResult(io: ArduinoBus.BusIO): (r: Result<uint16>)
    ensures r.Ok? <==> Retried(io.writeBlock).Done? && Retried(io.readByte).Done? && Retried(io.readBlock).Done?
    ensures r.Ok? ==> r.value / 256 == Retried(io.readBlock).value[1] && r.value % 256 == Retried(io.readBlock).value[2]
  {
    var w := Retried(io.writeBlock);
    var b := Retried(io.readByte);
    var k := Retried(io.readBlock);
    if w.Failed? then Err(IOError(w.errno))
    else if b.Failed? then Err(IOError(b.errno))
    else if k.Failed? then Err(IOError(k.errno))
    else Ok(Codecs.BigEndianUInt16(k.value, 1))
  }

  /** The bus operations of a two-byte read, up to the first failure. */
  function TwoByteReadOps(frame: Frame, io: ArduinoBus.BusIO): (ops: seq<BusOp>)
    ensures 1 <= |ops| <= 3 && ops[0] == BlockWrite(frame)
    ensures |ops| == 3 <==> Retried(io.writeBlock).Done? && Retried(io.readByte).Done?
  {
    [BlockWrite(frame)]
      + (if Retried(io.writeBlock).Failed? then []
         else [ByteRead] + (if Retried(io.readByte).Done? then [BlockRead] else []))
  }

  /** The result of a digital read: write the command and read the status
      byte; zero is low, anything else high. */
  function DigitalReadResult(io: ArduinoBus.BusIO): (r: Result<DigitalValue>)
    ensures r.Ok? <==> Retried(io.writeBlock).Done? && Retried(io.readByte).Done?
    ensures r.Ok? ==> (r.value == Low <==> Retried(io.readByte).value == 0)
  {
    var w := Retried(io.writeBlock);
    var b := Retried(io.readByte);
    if w.Failed? then Err(IOError(w.errno))
    else if b.Failed? then Err(IOError(b.errno))
    else Ok(if b.value == 0 then Low else High)
  }

  /** An I/O object bound to one port of the bus: a sensor, a button or a
      light. */
  class GrovePiArduinoIO {
    const bus1: GrovePiArduinoBus1
    const port: SupportPort

    /** The fields of `init`; the pin-mode write of `init`, which may
        throw, is made by `NewArduinoIO`. */
    constructor(bus: GrovePiArduinoBus1, port: SupportPort)
      ensures bus1 == bus && this.port == port
    {
      bus1 := bus;
      this.port := port;
    }

    /** `directSetIOMode`: the frame (5, port, mode, 0). */
    method DirectSetIOMode(ioMode: IOMode, o: Oracle<()>) returns (outcome: Outcome)
      modifies bus1
      ensures bus1.fdOpen == old(bus1.fdOpen)
      ensures bus1.trace == old(bus1.trace) + [BlockWrite(CommandFrame(PinMode, port.Id(), ioMode.RawValue()))]
      ensures outcome == ArduinoBus.AsOutcome(Retried(o))
    {
      outcome := bus1.WriteBlock(CommandFrame(PinMode, port.Id(), ioMode.RawValue()), o);
    }

    /** `directReadAnalogueValue`: the frame (3, port, 0, 0), then the
        block's bytes 1 and 2 as a big-endian value. */
    method DirectReadAnalogueValue(io: ArduinoBus.BusIO) returns (r: Result<uint16>)
      modifies bus1
      ensures bus1.fdOpen == old(bus1.fdOpen)
      ensures bus1.trace == old(bus1.trace) + TwoByteReadOps(CommandFrame(AnalogRead, port.Id()), io)
      ensures r == TwoByteReadResult(io)
    {
      r := ReadTwoBytes(AnalogRead, io);
    }

    /** `directReadUltraSonicRange`: the same with the frame
        (7, port, 0, 0). */
    method DirectReadUltrasonicRange(io: ArduinoBus.BusIO) returns (r: Result<uint16>)
      modifies bus1
      ensures bus1.fdOpen == old(bus1.fdOpen)
      ensures bus1.trace == old(bus1.trace) + TwoByteReadOps(CommandFrame(UltrasonicRangeRead, port.Id()), io)
      ensures r == TwoByteReadResult(io)
    {
      r := ReadTwoBytes(UltrasonicRangeRead, io);
    }

    /** The steps shared by the analogue and ultrasonic reads. */
    method ReadTwoBytes(command: Command, io: ArduinoBus.BusIO) returns (r: Result<uint16>)
      modifies bus1
      ensures bus1.fdOpen == old(bus1.fdOpen)
      ensures bus1.trace == old(bus1.trace) + TwoByteReadOps(CommandFrame(command, port.Id()), io)
      ensures r == TwoByteReadResult(io)
    {
      var written := bus1.WriteBlock(CommandFrame(command, port.Id()), io.writeBlock);
      if written.Fail? {
        return Err(written.error);
      }
      var status := bus1.ReadByte(io.readByte);
      if status.Err? {
        return Err(status.error);
      }
      var bytes := bus1.ReadBlock(io.readBlock);
      if bytes.Err? {
        return Err(bytes.error);
      }
      r := Ok(Codecs.BigEndianUInt16(bytes.value, 1));
    }

    /** `directReadDigitalValue`: the frame (1, port, 0, 0), then the
        status byte. */
    method DirectReadDigitalValue(io: ArduinoBus.BusIO) returns (r: Result<DigitalValue>)
      modifies bus1
      ensures bus1.fdOpen == old(bus1.fdOpen)
      ensures bus1.trace == old(bus1.trace) + [BlockWrite(CommandFrame(DigitalRead, port.Id()))]
        + (if Retried(io.writeBlock).Done? then [ByteRead] else [])
      ensures r == DigitalReadResult(io)
    {
      var written := bus1.WriteBlock(CommandFrame(DigitalRead, port.Id()), io.writeBlock);
      if written.Fail? {
        return Err(written.error);
      }
      var status := bus1.ReadByte(io.readByte);
      if status.Err? {
        return Err(status.error);
      }
      r := Ok(if status.value == 0 then Low else High);
    }

    /** `directWriteAnalogueValue`: the frame (4, port, value, 0). */
    method DirectWriteAnalogueValue(value: byte, o: Oracle<()>) returns (outcome: Outcome)
      modifies bus1
      ensures bus1.fdOpen == old(bus1.fdOpen)
      ensures bus1.trace == old(bus1.trace) + [BlockWrite(CommandFrame(AnalogWrite, port.Id(), value))]
      ensures outcome == ArduinoBus.AsOutcome(Retried(o))
    {
      outcome := bus1.WriteBlock(CommandFrame(AnalogWrite, port.Id(), value), o);
    }

    /** `directWriteDigitalValue`: the frame (2, port, level, 0). */
    method DirectWriteDigitalValue(value: DigitalValue, o: Oracle<()>) returns (outcome: Outcome)
      modifies bus1
      ensures bus1.fdOpen == old(bus1.fdOpen)
      ensures bus1.trace == old(bus1.trace) + [BlockWrite(CommandFrame(DigitalWrite, port.Id(), value.RawValue()))]
      ensures outcome == ArduinoBus.AsOutcome(Retried(o))
    {
      outcome := bus1.WriteBlock(CommandFrame(DigitalWrite, port.Id(), value.RawValue()), o);
    }

    /** `cancelChangeReport(withID:)`: the bus-access object's
        `removeSensorScan` for this object's port. */
    method CancelChangeReport(reportID: BusAccess.SensorScanChangeReportID)
      requires bus1.access.Valid()
      modifies bus1.access
      ensures bus1.access.Valid() && bus1.access.nextSlot == old(bus1.access.nextSlot)
      ensures !bus1.access.RemovalApplies(reportID, port) ==>
        bus1.access.analogueSensorScans == old(bus1.access.analogueSensorScans)
        && bus1.access.digitalSensorScans == old(bus1.access.digitalSensorScans)
        && bus1.access.twoFloatsSensorScans == old(bus1.access.twoFloatsSensorScans)
        && bus1.access.taskLog == old(bus1.access.taskLog)
      ensures bus1.access.RemovalApplies(reportID, port) ==>
        var access := bus1.access;
        var t := BusAccess.OutputTypeOf(reportID.id).value;
        access.twoFloatsSensorScans
          == old(access.twoFloatsSensorScans) - (if t == BusAccess.TwoFloatValues then {reportID.id} else {})
        && access.analogueSensorScans
          == old(access.analogueSensorScans) - (if t == BusAccess.AnalogueValue then {reportID.id} else {})
        && access.digitalSensorScans
          == old(access.digitalSensorScans) - (if t == BusAccess.DigitalOutputValue then {reportID.id} else {})
        && access.taskLog
          == old(access.taskLog) + (if access.Empty() && old(access.scanTaskRunning) then [BusAccess.StopScans] else [])
      ensures bus1.access.RemovalApplies(reportID, port) ==>
        reportID.id !in bus1.access.twoFloatsSensorScans && reportID.id !in bus1.access.analogueSensorScans
        && reportID.id !in bus1.access.digitalSensorScans
    {
      bus1.access.RemoveSensorScan(reportID, port);
    }
  }

  /** `init` of an I/O object: bound to the bus and the port, after the
      pin-mode write for its direction; a failing write throws and no
      object is made. */
  method NewArduinoIO(bus: GrovePiArduinoBus1, port: SupportPort, ioMode: IOMode, o: Oracle<()>)
    returns (r: Result<GrovePiArduinoIO>)
    modifies bus
    ensures bus.fdOpen == old(bus.fdOpen)
    ensures bus.trace == old(bus.trace) + [BlockWrite(CommandFrame(PinMode, port.Id(), ioMode.RawValue()))]
    ensures Retried(o).Failed? ==> r == Err(IOError(Retried(o).errno))
    ensures Retried(o).Done? ==> r.Ok? && fresh(r.value) && r.value.bus1 == bus && r.value.port == port
  {
    var io := new GrovePiArduinoIO(bus, port);
    var modeSet := io.DirectSetIOMode(ioMode, o);
    if modeSet.Fail? {
      return Err(modeSet.error);
    }
    r := Ok(io);
  }

  /** The analogue read returns the value whose big-endian bytes are the
      block's bytes 1 and 2, and the other bytes of the block play no
      part. */
  lemma TwoByteReadDecodes(io: ArduinoBus.BusIO, value: uint16)
    requires TwoByteReadResult(io).Ok?
    ensures TwoByteReadResult(io).value == value <==> Retried(io.readBlock).value[1..3] == Codecs.BigEndianBytes(value)
  {
    var block := Retried(io.readBlock).value;
    var v := TwoByteReadResult(io).value;
    Codecs.BigEndianRoundTrip(v, block[1..3]);
    Codecs.BigEndianRoundTrip(value, block[1..3]);
    assert Codecs.BigEndianUInt16(block[1..3]) == v;
  }
}
