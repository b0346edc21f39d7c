/** The earlier Arduino bus (Sources/ArduinoBus): a dictionary of the units
    plugged into each port, keyed by `EquatablePortLabel`, input sources
    that hold the bus weakly, and bus calls that sleep after every failed
    attempt. Its `connect` guard is inverted: it throws when the port is
    free. */
module OldArduinoBus {
  import opened Common
  import opened GrovePiIO
  import opened PortLabels
  import opened Transport
  import opened Protocols
  import opened Multicast
  import Delegates
  import OldScanner
  import ArduinoBus

  /** `delayReadAfterCommandTimeInterval` of this revision: 25 ms. */
  const ReadDelayOfThisRevision: Time := 25_000

  /** A value a protocol of this revision compares: a 10-bit analogue value
      is converted to Int16 first, so it must fit in one. */
  predicate Comparable(v: InputValue) {
    v.Range1024? ==> OldScanner.FitsInt16(v.range)
  }

  /** `areSignificantDifferent` of this revision for two values of one
      protocol: analogue values differ by at least 2, digital levels
      differ. */
  predicate SignificantlyDifferent(p: InputProtocol, newValue: InputValue, previousValue: InputValue)
    requires Produces(p, newValue) && Produces(p, previousValue)
    requires Comparable(newValue) && Comparable(previousValue)
  {
    match p
    case Range1024Protocol => OldScanner.AnalogueSignificantlyDifferent(newValue.range, previousValue.range)
    case DigitalInputProtocol => OldScanner.DigitalSignificantlyDifferent(newValue.level, previousValue.level)
  }

  /** Unlike the current revision, a change of one step in an analogue
      value is not significant here. */
  lemma OneStepIsNotSignificant(v: uint16)
    requires v < 0x7FFF
    ensures !SignificantlyDifferent(Range1024Protocol, Range1024(v + 1), Range1024(v))
    ensures IsDifferenceSignificant(Range1024Protocol, Range1024(v + 1), Range1024(v))
  {
  }

  class GrovePiArduinoBus {
    var fdOpen: bool
    var portMap: map<EquatablePortLabel, ArduinoBus.InputUnit>
    const scanner: OldScanner.GrovePiBusScanner
    var trace: seq<BusOp>

    /** `init`: an empty dictionary and a new scanner; opening the device is
        `OpenIO`. */
    constructor()
      ensures portMap == map[] && trace == [] && !fdOpen
      ensures fresh(scanner) && scanner.scanItems == []
    {
      fdOpen := false;
      portMap := map[];
      scanner := new OldScanner.GrovePiBusScanner();
      trace := [];
    }

    /** `openIO`: open the device file (`openErrno` is the failure of
        `open`, if any) and select the Arduino's address (`ioctlErrno`). */
    method OpenIO(openErrno: Option<int>, ioctlErrno: Option<int>) returns (outcome: Outcome)
      modifies this
      ensures portMap == old(portMap) && trace == old(trace)
      ensures openErrno.Some? ==> outcome == Fail(OpenError(openErrno.value)) && !fdOpen
      ensures openErrno.None? && ioctlErrno.Some? ==> outcome == Fail(IOError(ioctlErrno.value)) && fdOpen
      ensures openErrno.None? && ioctlErrno.None? ==> outcome.Pass? && fdOpen
    {
      if openErrno.Some? {
        fdOpen := false;
        return Fail(OpenError(openErrno.value));
      }
      fdOpen := true;
      if ioctlErrno.Some? {
        return Fail(IOError(ioctlErrno.value));
      }
      outcome := Pass;
    }

    /** `closeIO`: nothing when the file is not open; otherwise the file is
        closed, and a failing `close` throws `CloseError`. */
    method CloseIO(closeErrno: Option<int>) returns (outcome: Outcome)
      modifies this
      ensures portMap == old(portMap) && trace == old(trace) && !fdOpen
      ensures outcome == (if old(fdOpen) && closeErrno.Some? then Fail(CloseError(closeErrno.value)) else Pass)
    {
      if !fdOpen {
        return Pass;
      }
      fdOpen := false;
      if closeErrno.Some? {
        return Fail(CloseError(closeErrno.value));
      }
      outcome := Pass;
    }

    /** `writeBlock`: one 4-byte frame, with at most nine retries, sleeping
        after each failed attempt. */
    method WriteBlock(cmd: byte, v1: byte, v2: byte, v3: byte, o: Oracle<()>) returns (outcome: Outcome)
      modifies this
      ensures portMap == old(portMap) && fdOpen == old(fdOpen)
      ensures trace == old(trace) + [BlockWrite(Frame(cmd, v1, v2, v3))]
      ensures outcome == ArduinoBus.AsOutcome(Retried(o))
    {
      var r, attempts, sleeps := RetrySleepingAfterFailure(o);
      trace := trace + [BlockWrite(Frame(cmd, v1, v2, v3))];
      outcome := ArduinoBus.AsOutcome(r);
    }

    /** `readByte`, retried the same way. */
    method ReadByte(o: Oracle<byte>) returns (r: Result<byte>)
      modifies this
      ensures portMap == old(portMap) && fdOpen == old(fdOpen)
      ensures trace == old(trace) + [ByteRead]
      ensures r == (if Retried(o).Done? then Ok(Retried(o).value) else Err(IOError(Retried(o).errno)))
    {
      var a, attempts, sleeps := RetrySleepingAfterFailure(o);
      trace := trace + [ByteRead];
      r := if a.Done? then Ok(a.value) else Err(IOError(a.errno));
    }

    /** `readBlock`, retried the same way. */
    method ReadBlock(o: Oracle<ArduinoBus.Block>) returns (r: Result<ArduinoBus.Block>)
      modifies this
      ensures portMap == old(portMap) && fdOpen == old(fdOpen)
      ensures trace == old(trace) + [BlockRead]
      ensures r == (if Retried(o).Done? then Ok(Retried(o).value) else Err(IOError(Retried(o).errno)))
    {
      var a, attempts, sleeps := RetrySleepingAfterFailure(o);
      trace := trace + [BlockRead];
      r := if a.Done? then Ok(a.value) else Err(IOError(a.errno));
    }

    /** `readCommand`: send the frame, read the status byte and, for more
        than one byte, replace it by the block; return the status byte
        alone, or bytes 1 to n of the block. The closed range 1...n of a
        32-byte block needs n <= 31, and a range 1...0 traps. */
    method ReadCommand(command: byte, portID: byte, parameter1: byte, parameter2: byte, delay: Time,
                       returnLength: byte, io: ArduinoBus.BusIO) returns (r: Result<seq<byte>>)
      requires 1 <= returnLength <= 31
      modifies this
      ensures portMap == old(portMap) && fdOpen == old(fdOpen)
      ensures trace == old(trace)
        + ArduinoBus.ReadCommandOps(Frame(command, portID, parameter1, parameter2), returnLength, io)
      ensures r == ArduinoBus.ReadCommandResult(returnLength, io)
    {
      var bytes: seq<byte> := [0];
      var written := WriteBlock(command, portID, parameter1, parameter2, io.writeBlock);
      if written.Fail? {
        return Err(written.error);
      }
      var status := ReadByte(io.readByte);
      if status.Err? {
        return Err(status.error);
      }
      bytes := [status.value];
      if returnLength > 1 {
        var block := ReadBlock(io.readBlock);
        if block.Err? {
          return Err(block.error);
        }
        bytes := block.value;
      }
      if returnLength == 1 {
        return Ok(bytes);
      }
      r := Ok(bytes[1..returnLength as int + 1]);
    }

    /** `setIOMode(_:on:)`: the frame (5, port, mode, 0). */
    method SetIOMode(ioMode: IOMode, portLabel: PortLabel, o: Oracle<()>) returns (outcome: Outcome)
      modifies this
      ensures portMap == old(portMap) && fdOpen == old(fdOpen)
      ensures trace == old(trace) + [BlockWrite(ArduinoBus.SetIOModeFrame(portLabel.Id(), ioMode.RawValue()))]
      ensures outcome == ArduinoBus.AsOutcome(Retried(o))
    {
      outcome := WriteBlock(5, portLabel.Id(), ioMode.RawValue(), 0, o);
    }

    /** `connect(inputUnit:to:using:)`. The guard throws
        `AlreadyOccupiedPort` when the port has NO entry; for a port with an
        entry the port kind is checked, the entry overwritten with the unit,
        and a new input source made, whose pin-mode write may throw. The
        keys of the dictionary therefore never change. */
    method Connect(inputUnit: ArduinoBus.InputUnit, portLabel: PortLabel, inputProtocol: InputProtocol, o: Oracle<()>)
      returns (r: Result<ArduinoInputSource>)
      modifies this
      ensures portMap.Keys == old(portMap).Keys && fdOpen == old(fdOpen)
      ensures EquatablePortLabel(portLabel) !in old(portMap) ==>
        r == Err(AlreadyOccupiedPort(portLabel.Description())) && portMap == old(portMap) && trace == old(trace)
      ensures EquatablePortLabel(portLabel) in old(portMap) && portLabel.Type() !in inputUnit.supportedPortTypes ==>
        r == Err(UnsupportedPortTypeForUnit(inputUnit.description, portLabel.Type().Description()))
        && portMap == old(portMap) && trace == old(trace)
      ensures EquatablePortLabel(portLabel) in old(portMap) && portLabel.Type() in inputUnit.supportedPortTypes ==>
        portMap == old(portMap)[EquatablePortLabel(portLabel) := inputUnit]
        && trace == old(trace) + [BlockWrite(ArduinoBus.SetIOModeFrame(portLabel.Id(), Input.RawValue()))]
        && (Retried(o).Failed? ==> r == Err(IOError(Retried(o).errno)))
        && (Retried(o).Done? ==>
              r.Ok? && fresh(r.value) && r.value.arduinoBus == this && r.value.portLabel == portLabel
              && r.value.inputUnit == inputUnit && r.value.inputProtocol == inputProtocol && r.value.Valid()
              && r.value.inputChangedDelegates.delegates == [])
    {
      var wrapper := EquatablePortLabel(portLabel);
      if wrapper !in portMap {
        return Err(AlreadyOccupiedPort(portLabel.Description()));
      }
      if portLabel.Type() !in inputUnit.supportedPortTypes {
        return Err(UnsupportedPortTypeForUnit(inputUnit.description, portLabel.Type().Description()));
      }
      portMap := portMap[wrapper := inputUnit];
      var source := new ArduinoInputSource(this, portLabel, inputUnit, inputProtocol);
      var modeSet := SetIOMode(Input, portLabel, o);
      if modeSet.Fail? {
        return Err(modeSet.error);
      }
      r := Ok(source);
    }
  }

  /** `ArduinoInputSource` of this revision: it holds the bus weakly and
      checks only that the bus is still there. */
  class ArduinoInputSource {
    var arduinoBus: GrovePiArduinoBus?
    const portLabel: PortLabel
    const inputUnit: ArduinoBus.InputUnit
    const inputProtocol: InputProtocol
    const inputChangedDelegates: MulticastDelegate<Delegates.AnyInputValueChangedDelegate<InputValue>, InputValue>
    const delayMicroseconds: Time
    const extraParameters: seq<byte>
    var lastChangedValue: Option<InputValue>

    /** The read parameters are two bytes and the last reported value is
        one the protocol produces and that can be compared. */
    predicate Valid()
      reads this
    {
      |extraParameters| == 2
      && (lastChangedValue.Some? ==> Produces(inputProtocol, lastChangedValue.value) && Comparable(lastChangedValue.value))
    }

    /** The fields of `init`: the read parameters padded to two bytes and
        the default delay. The pin-mode write of `init` is made by
        `Connect` right after. */
    constructor(arduinoBus: GrovePiArduinoBus, portLabel: PortLabel, inputUnit: ArduinoBus.InputUnit, inputProtocol: InputProtocol)
      ensures Valid()
      ensures this.arduinoBus == arduinoBus && this.portLabel == portLabel
      ensures this.inputUnit == inputUnit && this.inputProtocol == inputProtocol
      ensures fresh(inputChangedDelegates) && inputChangedDelegates.delegates == [] && lastChangedValue.None?
      ensures extraParameters == ArduinoBus.PaddedParameters(Settings(inputProtocol).additionalParameters)
      ensures delayMicroseconds == ReadDelayOfThisRevision
    {
      this.arduinoBus := arduinoBus;
      this.portLabel := portLabel;
      this.inputUnit := inputUnit;
      this.inputProtocol := inputProtocol;
      inputChangedDelegates := new MulticastDelegate();
      delayMicroseconds := ReadDelayOfThisRevision;
      extraParameters := ArduinoBus.PaddedParameters(Settings(inputProtocol).additionalParameters);
      lastChangedValue := None;
    }

    /** What reading the value yields: `DisconnectedBus` without a bus,
        otherwise the read command's result converted by the protocol. */
    function ReadResult(io: ArduinoBus.BusIO): (r: Result<InputValue>)
      reads this
      ensures arduinoBus == null ==> r == Err(DisconnectedBus)
      ensures r.Ok? ==> Produces(inputProtocol, r.value)
    {
      if arduinoBus == null then Err(DisconnectedBus)
      else ArduinoBus.ConvertResult(inputProtocol, ArduinoBus.ReadCommandResult(Settings(inputProtocol).responseValueLength, io))
    }

    /** `readBytes`: `DisconnectedBus` once the bus is gone, otherwise the
        protocol's read command on this port. */
    method ReadBytes(io: ArduinoBus.BusIO) returns (r: Result<seq<byte>>)
      requires Valid()
      modifies arduinoBus
      ensures arduinoBus == null ==> r == Err(DisconnectedBus)
      ensures arduinoBus != null ==>
        arduinoBus.portMap == old(arduinoBus.portMap) && arduinoBus.fdOpen == old(arduinoBus.fdOpen)
        && arduinoBus.trace == old(arduinoBus.trace) + ReadOps(io)
        && r == ArduinoBus.ReadCommandResult(Settings(inputProtocol).responseValueLength, io)
    {
      var bus := arduinoBus;
      if bus == null {
        return Err(DisconnectedBus);
      }
      var settings := Settings(inputProtocol);
      r := bus.ReadCommand(settings.readCommand, portLabel.Id(), extraParameters[0], extraParameters[1],
                           delayMicroseconds, settings.responseValueLength, io);
    }

    /** The bus operations of this source's read: the protocol's read
        command on its port. */
    function ReadOps(io: ArduinoBus.BusIO): seq<BusOp>
      reads this
      requires |extraParameters| == 2
    {
      ArduinoBus.ReadCommandOps(Frame(Settings(inputProtocol).readCommand, portLabel.Id(), extraParameters[0], extraParameters[1]),
                                Settings(inputProtocol).responseValueLength, io)
    }

    /** `readValue`: the bytes read, converted by the protocol. */
    method ReadValue(io: ArduinoBus.BusIO) returns (r: Result<InputValue>)
      requires Valid()
      modifies arduinoBus
      ensures r == ReadResult(io)
      ensures arduinoBus != null ==>
        arduinoBus.portMap == old(arduinoBus.portMap) && arduinoBus.fdOpen == old(arduinoBus.fdOpen)
        && arduinoBus.trace == old(arduinoBus.trace) + ReadOps(io)
    {
      var valueBytes := ReadBytes(io);
      r := ArduinoBus.ConvertResult(inputProtocol, valueBytes);
    }

    /** `addValueChangedDelegate`: nothing at all once the bus is gone;
        otherwise append the delegate and, when it is the first, add a scan
        item for this port. */
    method AddValueChangedDelegate(d: Delegates.AnyInputValueChangedDelegate<InputValue>, now: Time)
      requires arduinoBus != null && |inputChangedDelegates.delegates| == 0 ==> inputUnit.sampleTimeInterval != 0
      modifies inputChangedDelegates, if arduinoBus == null then {} else {arduinoBus.scanner}
      ensures arduinoBus == null ==> inputChangedDelegates.delegates == old(inputChangedDelegates.delegates)
      ensures arduinoBus != null ==>
        inputChangedDelegates.delegates == old(inputChangedDelegates.delegates) + [d]
        && arduinoBus.scanner.scanItems
           == old(arduinoBus.scanner.scanItems)
             + (if |old(inputChangedDelegates.delegates)| == 0
                then [OldScanner.NewScanItem(portLabel, inputUnit.sampleTimeInterval, now)] else [])
    {
      var bus := arduinoBus;
      if bus == null {
        return;
      }
      inputChangedDelegates.AddDelegate(d);
      if inputChangedDelegates.Count() == 1 {
        bus.scanner.AddScanItem(portLabel, inputUnit.sampleTimeInterval, now);
      }
    }

    /** `removeValueChangedDelegate`: nothing at all once the bus is gone;
        otherwise remove every entry equal to the delegate and, when none is
        left, remove the port's first scan item. */
    method RemoveValueChangedDelegate(d: Delegates.AnyInputValueChangedDelegate<InputValue>)
      modifies inputChangedDelegates, if arduinoBus == null then {} else {arduinoBus.scanner}
      ensures arduinoBus == null ==> inputChangedDelegates.delegates == old(inputChangedDelegates.delegates)
      ensures arduinoBus != null ==>
        inputChangedDelegates.delegates == Without(old(inputChangedDelegates.delegates), d)
        && (|inputChangedDelegates.delegates| > 0 ==> arduinoBus.scanner.scanItems == old(arduinoBus.scanner.scanItems))
        && (|inputChangedDelegates.delegates| == 0 ==>
              var m := OldScanner.FirstMatch(old(arduinoBus.scanner.scanItems), EquatablePortLabel(portLabel));
              arduinoBus.scanner.scanItems
              == if m.None? then old(arduinoBus.scanner.scanItems)
                 else old(arduinoBus.scanner.scanItems)[..m.value] + old(arduinoBus.scanner.scanItems)[m.value + 1..])
    {
      var bus := arduinoBus;
      if bus == null {
        return;
      }
      inputChangedDelegates.RemoveDelegate(d);
      if inputChangedDelegates.Count() == 0 {
        bus.scanner.RemoveScanItem(portLabel);
      }
    }

    /** `valueChangedEvaluation`: read the value; when there is no earlier
        reported value or the change is significant by this revision's
        test, notify every delegate in order and remember the value. A
        failed read throws and changes nothing. Comparing analogue values
        converts them to Int16, so the value read must fit in one. */
    method ValueChangedEvaluation(t: Time, io: ArduinoBus.BusIO)
      returns (outcome: Outcome, notified: seq<Delegates.Delivery<InputValue>>)
      requires Valid()
      requires ReadResult(io).Ok? ==> Comparable(ReadResult(io).value)
      modifies this, arduinoBus
      ensures Valid() && arduinoBus == old(arduinoBus)
      ensures arduinoBus != null ==>
        arduinoBus.portMap == old(arduinoBus.portMap) && arduinoBus.fdOpen == old(arduinoBus.fdOpen)
        && arduinoBus.trace == old(arduinoBus.trace) + old(ReadOps(io))
      ensures var r := old(ReadResult(io));
        (r.Err? ==> outcome == Fail(r.error) && notified == [] && lastChangedValue == old(lastChangedValue))
        && (r.Ok? ==>
              var notify := old(lastChangedValue).None?
                || SignificantlyDifferent(inputProtocol, r.value, old(lastChangedValue).value);
              outcome.Pass?
              && (notify ==>
                    lastChangedValue == Some(r.value)
                    && |notified| == |inputChangedDelegates.delegates|
                    && forall i :: 0 <= i < |notified| ==>
                         notified[i] == Delegates.NewInputValue(inputChangedDelegates.delegates[i], r.value, t))
              && (!notify ==> notified == [] && lastChangedValue == old(lastChangedValue)))
    {
      var read := ReadValue(io);
      notified := [];
      if read.Err? {
        return Fail(read.error), [];
      }
      var newValue := read.value;
      var previousValue := lastChangedValue;
      if previousValue.None? || SignificantlyDifferent(inputProtocol, newValue, previousValue.value) {
        var receivers := inputChangedDelegates.Invoke(newValue);
        notified := seq(|receivers|, i requires 0 <= i < |receivers| => Delegates.NewInputValue(receivers[i], newValue, t));
        lastChangedValue := Some(newValue);
      }
      outcome := Pass;
    }

    /** The weak reference clears when the bus is released. */
    method BusReleased()
      modifies this
      ensures arduinoBus == null && lastChangedValue == old(lastChangedValue)
    {
      arduinoBus := null;
    }
  }

  /** The static `bus` of this revision. */
  class BusSingleton {
    var bus: GrovePiArduinoBus?

    constructor()
      ensures bus == null
    {
      bus := null;
    }

    /** `connectBus`: create and open the bus once; later calls return the
        same bus. A failing `openIO` leaves no bus. */
    method ConnectBus(openErrno: Option<int>, ioctlErrno: Option<int>) returns (r: Result<GrovePiArduinoBus>)
      modifies this
      ensures old(bus) != null ==> bus == old(bus) && r.Ok? && r.value == bus
      ensures old(bus) == null && openErrno.Some? ==> bus == null && r == Err(OpenError(openErrno.value))
      ensures old(bus) == null && openErrno.None? && ioctlErrno.Some? ==> bus == null && r == Err(IOError(ioctlErrno.value))
      ensures old(bus) == null && openErrno.None? && ioctlErrno.None? ==>
        bus != null && fresh(bus) && r.Ok? && r.value == bus && bus.portMap == map[] && bus.fdOpen
    {
      if bus == null {
        var created := new GrovePiArduinoBus();
        var openOutcome := created.OpenIO(openErrno, ioctlErrno);
        if openOutcome.Fail? {
          return Err(openOutcome.error);
        }
        bus := created;
      }
      r := Ok(bus as GrovePiArduinoBus);
    }

    /** `disconnectBus`: nothing without a bus; otherwise only the device
        file is closed (the dictionary is left as it is), and the shared bus
        is cleared even when closing throws. */
    method DisconnectBus(closeErrno: Option<int>) returns (outcome: Outcome)
      modifies this, bus
      ensures bus == null
      ensures old(bus) == null ==> outcome.Pass?
      ensures old(bus) != null ==>
        !old(bus).fdOpen && old(bus).portMap == old(bus.portMap)
        && outcome == (if old(bus.fdOpen) && closeErrno.Some? then Fail(CloseError(closeErrno.value)) else Pass)
    {
      var released := bus;
      if released == null {
        return Pass;
      }
      outcome := released.CloseIO(closeErrno);
      bus := null;
    }
  }
}
