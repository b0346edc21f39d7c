/** The Arduino side of the GrovePi: the bus object that owns the port
    dictionary, frames commands and retries bus calls, and the port
    connections (input sources and output destinations) that it hands out. */
module ArduinoBus {
  import opened Common
  import opened GrovePiIO
  import opened PortLabels
  import opened AnyPortLabel
  import opened Transport
  import opened Protocols
  import opened Multicast
  import opened Calls
  import Delegates
  import Scanner
  import Display
  import MotorDrive

  /** The 32-byte buffer a block read fills. */
  type Block = s: seq<byte> | |s| == 32 witness seq(32, _ => 0)

  /** What the C calls of one transaction return, attempt by attempt: the
      block write, the byte read and the block read. */
  datatype BusIO = BusIO(writeBlock: Oracle<()>, readByte: Oracle<byte>, readBlock: Oracle<Block>)

  /** A failed bus call throws `IOError` with the `errno` of its last
      attempt. */
  function AsOutcome<R>(a: Attempt<R>): (outcome: Outcome)
    ensures outcome.Pass? <==> a.Done?
    ensures a.Failed? ==> outcome == Fail(IOError(a.errno))
  {
    if a.Done? then Pass else Fail(IOError(a.errno))
  }

  /** An input unit (light sensor, button, ...): its type, description,
      the port kinds it can be plugged into, its pin mode and its sample
      interval. Units are compared by value. */
  datatype InputUnit = InputUnit(
    typeName: string,
    description: string,
    supportedPortTypes: set<PortType>,
    ioMode: IOMode,
    sampleTimeInterval: Time)

  /** An output unit (LED, buzzer, display, motor driver). */
  datatype OutputUnit = OutputUnit(
    typeName: string,
    description: string,
    supportedPortTypes: set<PortType>,
    ioMode: IOMode)

  /** The output protocols: the two with the default Arduino commands, and
      the display and the motor driver with write sequences of their own. */
  datatype OutputProtocol = Range256Protocol | DigitalOutputProtocol | RGBLCDDisplayProtocol | MotorDriveProtocol

  datatype OutputValue =
    | Range256(range: byte)
    | DigitalLevel(level: DigitalValue)
    | Text(displayText: Display.DisplayText)
    | Gears(gearAndDirection: MotorDrive.DualMotorGearAndDirection)

  /** The value type each output protocol writes. */
  predicate Accepts(p: OutputProtocol, v: OutputValue) {
    match p
    case Range256Protocol => v.Range256?
    case DigitalOutputProtocol => v.DigitalLevel?
    case RGBLCDDisplayProtocol => v.Text?
    case MotorDriveProtocol => v.Gears?
  }

  /** `writeCommand` of each output protocol. */
  function WriteCommandOf(p: OutputProtocol): (w: WriteCommandType)
    ensures w.Arduino? <==> p.Range256Protocol? || p.DigitalOutputProtocol?
  {
    match p
    case Range256Protocol => Range256WriteCommand
    case DigitalOutputProtocol => DigitalWriteCommand
    case _ => Other
  }

  /** `convert(outputValue:)` of the protocols that use an Arduino command. */
  function ConvertOutput(p: OutputProtocol, v: OutputValue): (bs: seq<byte>)
    requires Accepts(p, v) && WriteCommandOf(p).Arduino?
    ensures |bs| == 1
  {
    if p.Range256Protocol? then ConvertRange256(v.range) else ConvertDigitalOutput(v.level)
  }

  /** The pin-mode frame: command 5, the port id and the mode. */
  function SetIOModeFrame(portID: byte, ioModeValue: byte): (f: Frame)
    ensures f == WriteFrame(5, portID, [ioModeValue])
  {
    Frame(5, portID, ioModeValue, 0)
  }

  /** The frame of `writeCommand`: the command, the port id, and the first
      two value bytes with 0 for each one missing; further bytes are not
      sent. */
  function WriteFrame(command: byte, portID: byte, valueBytes: seq<byte>): (f: Frame)
    ensures f.command == command && f.p1 == portID
    ensures f.p2 == (if |valueBytes| > 0 then valueBytes[0] else 0)
    ensures f.p3 == (if |valueBytes| > 1 then valueBytes[1] else 0)
    ensures |valueBytes| > 2 ==> f == WriteFrame(command, portID, valueBytes[..2])
  {
    Frame(command, portID, if |valueBytes| > 0 then valueBytes[0] else 0, if |valueBytes| > 1 then valueBytes[1] else 0)
  }

  /** The response of a read command: the status byte alone when one byte
      is asked for, otherwise bytes 1 to n of the block. */
  function ReadResponse(status: byte, block: Block, returnLength: byte): (bytes: seq<byte>)
    requires 1 <= returnLength <= 31
    ensures |bytes| == returnLength
    ensures returnLength == 1 ==> bytes == [status]
    ensures returnLength > 1 ==> forall i :: 0 <= i < returnLength ==> bytes[i] == block[i + 1]
  {
    if returnLength == 1 then [status] else block[1..returnLength as int + 1]
  }

  /** The result of a read command: the first failing call's error, or the
      response. */
  function ReadCommandResult(returnLength: byte, io: BusIO): (r: Result<seq<byte>>)
    requires 1 <= returnLength <= 31
    ensures r.Ok? ==> |r.value| == returnLength
    ensures r.Ok? <==> (Retried(io.writeBlock).Done? && Retried(io.readByte).Done?
                        && (returnLength > 1 ==> Retried(io.readBlock).Done?))
  {
    var w := Retried(io.writeBlock);
    var b := Retried(io.readByte);
    var k := Retried(io.readBlock);
    if w.Failed? then Err(IOError(w.errno))
    else if b.Failed? then Err(IOError(b.errno))
    else if returnLength == 1 then Ok([b.value])
    else if k.Failed? then Err(IOError(k.errno))
    else Ok(ReadResponse(b.value, k.value, returnLength))
  }

  /** The bus operations of a read command: the frame, then the byte read
      if the write went through, then the block read if more than one byte
      is asked for and the byte read went through. */
  function ReadCommandOps(frame: Frame, returnLength: byte, io: BusIO): (ops: seq<BusOp>)
    ensures 1 <= |ops| <= 3 && ops[0] == BlockWrite(frame)
  {
    [BlockWrite(frame)]
      + (if Retried(io.writeBlock).Failed? then []
         else [ByteRead] + (if Retried(io.readByte).Done? && returnLength > 1 then [BlockRead] else []))
  }

  /** A value read by an input protocol, or the error of the read. */
  function ConvertResult(p: InputProtocol, r: Result<seq<byte>>): (v: Result<InputValue>)
    requires r.Ok? ==> |r.value| >= Settings(p).responseValueLength
    ensures v.Ok? <==> r.Ok?
    ensures v.Ok? ==> Produces(p, v.value) && v.value == Convert(p, r.value)
    ensures v.Err? ==> v.error == r.error
  {
    match r
    case Ok(bytes) => Ok(Convert(p, bytes))
    case Err(e) => Err(e)
  }

  /** The two read parameters: the protocol's additional parameters padded
      with zeroes (or cut) to two bytes. */
  function PaddedParameters(extraBytes: seq<byte>): (ps: seq<byte>)
    ensures |ps| == 2
    ensures ps[0] == (if |extraBytes| > 0 then extraBytes[0] else 0)
    ensures ps[1] == (if |extraBytes| > 1 then extraBytes[1] else 0)
  {
    [if |extraBytes| > 0 then extraBytes[0] else 0, if |extraBytes| > 1 then extraBytes[1] else 0]
  }

  /** The default input protocols add no read parameters, so both read
      parameters are 0. */
  lemma DefaultReadParametersAreZero(p: InputProtocol)
    ensures PaddedParameters(Settings(p).additionalParameters) == [0, 0]
  {
  }

  /** A port dictionary entry: an input source or an output destination. */
  datatype ConnectablePort = InputPort(source: ArduinoInputSource) | OutputPort(destination: ArduinoOutputDestination)

  /** The connection state shared by both kinds of entry. */
  function ConnectionOf(c: ConnectablePort): ArduinoPortConnection {
    match c
    case InputPort(s) => s.connection
    case OutputPort(d) => d.connection
  }

  /** The objects an entry's `disconnect` may change. */
  function Footprint(c: ConnectablePort): set<object> {
    match c
    case InputPort(s) => {s, s.connection, s.inputChangedDelegates}
    case OutputPort(d) => {d, d.connection}
  }

  /** The scan list after one entry is disconnected: an input source with
      delegates has the scanner drop the first item of its port; any other
      entry leaves the list as it is. */
  function ScanItemsAfterDisconnect(c: ConnectablePort, items: seq<Scanner.ScanItem>): seq<Scanner.ScanItem>
    reads if c.InputPort? then {c.source.inputChangedDelegates} else {}
  {
    match c
    case InputPort(s) =>
      if |s.inputChangedDelegates.delegates| > 0
      then Scanner.RemoveFirst(items, Erase(Concrete(s.connection.portLabel)))
      else items
    case OutputPort(_) => items
  }

  /** A disconnected input source has no delegates left. */
  predicate DelegatesDropped(c: ConnectablePort)
    reads if c.InputPort? then {c.source.inputChangedDelegates} else {}
  {
    c.InputPort? ==> c.source.inputChangedDelegates.delegates == []
  }

  /** Each input source of the dictionary is keyed by its own port label,
      and no two entries share a delegate list: each entry was made by its
      own `connect`. */
  predicate EntriesDistinct(m: map<AnyGrovePiPortLabel, ConnectablePort>) {
    (forall k :: k in m && m[k].InputPort? ==> k == Erase(Concrete(m[k].source.connection.portLabel)))
    && forall k, l :: k in m && l in m && k != l && m[k].InputPort? && m[l].InputPort? ==>
         m[k].source.inputChangedDelegates != m[l].source.inputChangedDelegates
  }

  /** The ports of the input sources that have delegates, each of which
      has an item in the scanner's list. */
  function WatchedPorts(m: map<AnyGrovePiPortLabel, ConnectablePort>): set<AnyGrovePiPortLabel>
    reads set k | k in m && m[k].InputPort? :: m[k].source.inputChangedDelegates
  {
    set k | k in m && m[k].InputPort? && |m[k].source.inputChangedDelegates.delegates| > 0
  }

  function Connections(m: map<AnyGrovePiPortLabel, ConnectablePort>): set<ArduinoPortConnection> {
    set k | k in m :: ConnectionOf(m[k])
  }

  function Footprints(m: map<AnyGrovePiPortLabel, ConnectablePort>): set<object> {
    set k, o | k in m && o in Footprint(m[k]) :: o
  }

  /** `GrovePiArduinoBus`: the open device file, the port dictionary keyed
      by erased port label, the change scanner, and the operations put on
      the I2C bus so far. */
  class GrovePiArduinoBus {
    var fdOpen: bool
    var portMap: map<AnyGrovePiPortLabel, ConnectablePort>
    const scanner: Scanner.GrovePiBusScanner
    var trace: seq<BusOp>

    /** The scanner is consistent and every connection in the dictionary
        refers back to this bus. */
    ghost predicate Valid()
      reads this, scanner, scanner.scheduler, Connections(portMap)
    {
      scanner.Valid() && EntriesDistinct(portMap)
      && forall k :: k in portMap ==> ConnectionOf(portMap[k]).arduinoBus == this
    }

    /** `init`: an empty dictionary and a new scanner; opening the device is
        `OpenIO`. */
    constructor()
      ensures Valid() && portMap == map[] && trace == [] && !fdOpen
      ensures fresh(scanner) && scanner.scanItems == []
    {
      fdOpen := false;
      portMap := map[];
      scanner := new Scanner.GrovePiBusScanner();
      trace := [];
    }

    /** `openIO`: open the device file (`openErrno` is the failure of
        `open`, if any) and select the Arduino's address (`ioctlErrno`). */
    method OpenIO(openErrno: Option<int>, ioctlErrno: Option<int>) returns (outcome: Outcome)
      modifies this
      ensures portMap == old(portMap) && trace == old(trace)
      ensures openErrno.Some? ==> outcome == Fail(OpenError(openErrno.value)) && !fdOpen
      ensures openErrno.None? && ioctlErrno.Some? ==> outcome == Fail(IOError(ioctlErrno.value)) && fdOpen
      ensures openErrno.None? && ioctlErrno.None? ==> outcome.Pass? && fdOpen
    {
      if openErrno.Some? {
        fdOpen := false;
        return Fail(OpenError(openErrno.value));
      }
      fdOpen := true;
      if ioctlErrno.Some? {
        return Fail(IOError(ioctlErrno.value));
      }
      outcome := Pass;
    }

    /** `closeIO`: nothing when the file is not open; otherwise the file is
        closed, and a failing `close` (`closeErrno`) throws `CloseError`. */
    method CloseIO(closeErrno: Option<int>) returns (outcome: Outcome)
      modifies this
      ensures portMap == old(portMap) && trace == old(trace) && !fdOpen
      ensures outcome == (if old(fdOpen) && closeErrno.Some? then Fail(CloseError(closeErrno.value)) else Pass)
    {
      if !fdOpen {
        return Pass;
      }
      fdOpen := false;
      if closeErrno.Some? {
        return Fail(CloseError(closeErrno.value));
      }
      outcome := Pass;
    }

    /** `writeBlock`: one 4-byte frame, retried up to nine times. */
    method WriteBlock(cmd: byte, v1: byte, v2: byte, v3: byte, o: Oracle<()>) returns (outcome: Outcome)
      modifies this
      ensures portMap == old(portMap) && fdOpen == old(fdOpen)
      ensures trace == old(trace) + [BlockWrite(Frame(cmd, v1, v2, v3))]
      ensures outcome == AsOutcome(Retried(o))
    {
      var r, attempts, sleeps := RetrySleepingBetween(o);
      trace := trace + [BlockWrite(Frame(cmd, v1, v2, v3))];
      outcome := AsOutcome(r);
    }

    /** `readByte`: the status byte, retried up to nine times. */
    method ReadByte(o: Oracle<byte>) returns (r: Result<byte>)
      modifies this
      ensures portMap == old(portMap) && fdOpen == old(fdOpen)
      ensures trace == old(trace) + [ByteRead]
      ensures r == (if Retried(o).Done? then Ok(Retried(o).value) else Err(IOError(Retried(o).errno)))
    {
      var a, attempts, sleeps := RetrySleepingBetween(o);
      trace := trace + [ByteRead];
      r := if a.Done? then Ok(a.value) else Err(IOError(a.errno));
    }

    /** `readBlock`: the 32-byte block, retried up to nine times. */
    method ReadBlock(o: Oracle<Block>) returns (r: Result<Block>)
      modifies this
      ensures portMap == old(portMap) && fdOpen == old(fdOpen)
      ensures trace == old(trace) + [BlockRead]
      ensures r == (if Retried(o).Done? then Ok(Retried(o).value) else Err(IOError(Retried(o).errno)))
    {
      var a, attempts, sleeps := RetrySleepingBetween(o);
      trace := trace + [BlockRead];
      r := if a.Done? then Ok(a.value) else Err(IOError(a.errno));
    }

    /** `readCommand`: send (command, port, parameter 1, parameter 2), read
        the status byte and, for more than one byte, the block, and copy
        the response out of the block. The copy indexes a 32-byte block and
        an n-byte array, so n must lie in 1..31. The delay is a sleep. */
    method ReadCommand(command: byte, portID: byte, parameter1: byte, parameter2: byte, delay: Time,
                       returnLength: byte, io: BusIO) returns (r: Result<seq<byte>>)
      requires 1 <= returnLength <= 31
      modifies this
      ensures portMap == old(portMap) && fdOpen == old(fdOpen)
      ensures trace == old(trace) + ReadCommandOps(Frame(command, portID, parameter1, parameter2), returnLength, io)
      ensures r == ReadCommandResult(returnLength, io)
    {
      var n := returnLength as int;
      var bytes := new byte[n];
      var written := WriteBlock(command, portID, parameter1, parameter2, io.writeBlock);
      if written.Fail? {
        return Err(written.error);
      }
      var status := ReadByte(io.readByte);
      if status.Err? {
        return Err(status.error);
      }
      bytes[0] := status.value;
      if returnLength > 1 {
        var readBytes := ReadBlock(io.readBlock);
        if readBytes.Err? {
          return Err(readBytes.error);
        }
        for i := 0 to n
          modifies bytes
          invariant forall j :: 0 <= j < i ==> bytes[j] == readBytes.value[j + 1]
        {
          bytes[i] := readBytes.value[i + 1];
        }
        assert bytes[..] == ReadResponse(status.value, readBytes.value, returnLength);
      } else {
        assert bytes[..] == [status.value];
      }
      r := Ok(bytes[..]);
    }

    /** `writeCommand`: the frame (command, port, v0, v1), v0 and v1 being
        the first two value bytes or 0. */
    method WriteCommand(command: byte, portID: byte, valueBytes: seq<byte>, o: Oracle<()>) returns (outcome: Outcome)
      modifies this
      ensures portMap == old(portMap) && fdOpen == old(fdOpen)
      ensures trace == old(trace) + [BlockWrite(WriteFrame(command, portID, valueBytes))]
      ensures outcome == AsOutcome(Retried(o))
    {
      var v0 := if |valueBytes| > 0 then valueBytes[0] else 0;
      var v1 := if |valueBytes| > 1 then valueBytes[1] else 0;
      outcome := WriteBlock(command, portID, v0, v1, o);
    }

    /** `setIOMode`: the frame (5, port, mode, 0). */
    method SetIOMode(portID: byte, ioModeValue: byte, o: Oracle<()>) returns (outcome: Outcome)
      modifies this
      ensures portMap == old(portMap) && fdOpen == old(fdOpen)
      ensures trace == old(trace) + [BlockWrite(SetIOModeFrame(portID, ioModeValue))]
      ensures outcome == AsOutcome(Retried(o))
    {
      outcome := WriteBlock(5, portID, ioModeValue, 0, o);
    }

    /** `otherWriteCommand`: the calls an output protocol with a write
        sequence of its own made, up to the first that threw, put on the bus
        in order. */
    method OtherWriteCommand(ops: seq<BusOp>)
      modifies this
      ensures portMap == old(portMap) && fdOpen == old(fdOpen)
      ensures trace == old(trace) + ops
    {
      trace := trace + ops;
    }

    /** `connect(portLabel:to:using:)` for inputs. An occupied port yields
        the existing source when it is an input source of the same unit and
        protocol, and `AlreadyOccupiedPort` otherwise; a free port of a kind
        the unit does not support yields `UnsupportedPortTypeForUnit`; else
        a new source is connected (pin mode set) and only then entered. */
    method ConnectInput(portLabel: PortLabel, inputUnit: InputUnit, inputProtocol: InputProtocol, o: Oracle<()>)
      returns (r: Result<ArduinoInputSource>)
      requires Valid()
      modifies this
      ensures Valid() && fdOpen == old(fdOpen)
      ensures var key := Erase(Concrete(portLabel));
        key in old(portMap) ==>
          portMap == old(portMap) && trace == old(trace)
          && var existing := old(portMap)[key];
          if existing.InputPort? && existing.source.inputUnit == inputUnit && existing.source.inputProtocol == inputProtocol
          then r == Ok(existing.source)
          else r == Err(AlreadyOccupiedPort(portLabel.Description()))
      ensures Erase(Concrete(portLabel)) !in old(portMap) && portLabel.Type() !in inputUnit.supportedPortTypes ==>
        portMap == old(portMap) && trace == old(trace)
        && r == Err(UnsupportedPortTypeForUnit(inputUnit.description, portLabel.Type().Description()))
      ensures Erase(Concrete(portLabel)) !in old(portMap) && portLabel.Type() in inputUnit.supportedPortTypes ==>
        trace == old(trace) + [BlockWrite(SetIOModeFrame(portLabel.Id(), inputUnit.ioMode.RawValue()))]
        && (Retried(o).Failed? ==> r == Err(IOError(Retried(o).errno)) && portMap == old(portMap))
        && (Retried(o).Done? ==>
              r.Ok? && fresh(r.value) && portMap == old(portMap)[Erase(Concrete(portLabel)) := InputPort(r.value)]
              && r.value.connection.isConnected && r.value.connection.portLabel == portLabel
              && r.value.inputUnit == inputUnit && r.value.inputProtocol == inputProtocol
              && r.value.inputChangedDelegates.delegates == [] && r.value.Valid())
    {
      var wrappedPortLabel := Erase(Concrete(portLabel));
      if wrappedPortLabel in portMap {
        var existingConnection := portMap[wrappedPortLabel];
        if existingConnection.InputPort? && existingConnection.source.inputUnit == inputUnit
          && existingConnection.source.inputProtocol == inputProtocol {
          return Ok(existingConnection.source);
        }
        return Err(AlreadyOccupiedPort(portLabel.Description()));
      }
      if portLabel.Type() !in inputUnit.supportedPortTypes {
        return Err(UnsupportedPortTypeForUnit(inputUnit.description, portLabel.Type().Description()));
      }
      var inputSource := new ArduinoInputSource(this, portLabel, inputUnit, inputProtocol);
      var connected := inputSource.connection.Connect(o);
      if connected.Fail? {
        return Err(connected.error);
      }
      portMap := portMap[wrappedPortLabel := InputPort(inputSource)];
      r := Ok(inputSource);
    }

    /** `connect(portLabel:to:using:)` for outputs, with the same three
        outcomes as for inputs. */
    method ConnectOutput(portLabel: PortLabel, outputUnit: OutputUnit, outputProtocol: OutputProtocol, o: Oracle<()>)
      returns (r: Result<ArduinoOutputDestination>)
      requires Valid()
      modifies this
      ensures Valid() && fdOpen == old(fdOpen)
      ensures var key := Erase(Concrete(portLabel));
        key in old(portMap) ==>
          portMap == old(portMap) && trace == old(trace)
          && var existing := old(portMap)[key];
          if existing.OutputPort? && existing.destination.outputUnit == outputUnit
             && existing.destination.outputProtocol == outputProtocol
          then r == Ok(existing.destination)
          else r == Err(AlreadyOccupiedPort(portLabel.Description()))
      ensures Erase(Concrete(portLabel)) !in old(portMap) && portLabel.Type() !in outputUnit.supportedPortTypes ==>
        portMap == old(portMap) && trace == old(trace)
        && r == Err(UnsupportedPortTypeForUnit(outputUnit.description, portLabel.Type().Description()))
      ensures Erase(Concrete(portLabel)) !in old(portMap) && portLabel.Type() in outputUnit.supportedPortTypes ==>
        trace == old(trace) + [BlockWrite(SetIOModeFrame(portLabel.Id(), outputUnit.ioMode.RawValue()))]
        && (Retried(o).Failed? ==> r == Err(IOError(Retried(o).errno)) && portMap == old(portMap))
        && (Retried(o).Done? ==>
              r.Ok? && fresh(r.value) && portMap == old(portMap)[Erase(Concrete(portLabel)) := OutputPort(r.value)]
              && r.value.connection.isConnected && r.value.connection.portLabel == portLabel
              && r.value.outputUnit == outputUnit && r.value.outputProtocol == outputProtocol)
    {
      var wrappedPortLabel := Erase(Concrete(portLabel));
      if wrappedPortLabel in portMap {
        var existingConnection := portMap[wrappedPortLabel];
        if existingConnection.OutputPort? && existingConnection.destination.outputUnit == outputUnit
          && existingConnection.destination.outputProtocol == outputProtocol {
          return Ok(existingConnection.destination);
        }
        return Err(AlreadyOccupiedPort(portLabel.Description()));
      }
      if portLabel.Type() !in outputUnit.supportedPortTypes {
        return Err(UnsupportedPortTypeForUnit(outputUnit.description, portLabel.Type().Description()));
      }
      var outputSource := new ArduinoOutputDestination(this, portLabel, outputUnit, outputProtocol);
      var connected := outputSource.connection.Connect(o);
      if connected.Fail? {
        return Err(connected.error);
      }
      portMap := portMap[wrappedPortLabel := OutputPort(outputSource)];
      r := Ok(outputSource);
    }

    /** `disconnect(from:)`: the entry is taken out of the dictionary first
        and then disconnected; a label without an entry changes nothing. As
        the connection's bus is this bus, its `disconnect` cannot fail. */
    method DisconnectFrom(portLabel: LabelArgument) returns (outcome: Outcome)
      requires Valid()
      modifies this, scanner, scanner.scheduler, Footprints(portMap)
      ensures Valid() && trace == old(trace) && fdOpen == old(fdOpen)
      ensures portMap == old(portMap) - {Erase(portLabel)}
      ensures outcome.Pass?
      ensures Erase(portLabel) !in old(portMap) ==> scanner.scanItems == old(scanner.scanItems)
      ensures Erase(portLabel) in old(portMap) ==>
        var c := old(portMap)[Erase(portLabel)];
        !ConnectionOf(c).isConnected && DelegatesDropped(c)
        && scanner.scanItems == old(ScanItemsAfterDisconnect(c, scanner.scanItems))
    {
      var key := Erase(portLabel);
      if key in portMap {
        var connection := portMap[key];
        portMap := portMap - {key};
        outcome := DisconnectPort(connection);
      } else {
        outcome := Pass;
      }
    }

    /** The `disconnect` of one entry of the dictionary. */
    method DisconnectPort(c: ConnectablePort) returns (outcome: Outcome)
      requires scanner.Valid() && ConnectionOf(c).arduinoBus == this
      modifies scanner, scanner.scheduler, Footprint(c)
      ensures scanner.Valid() && ConnectionOf(c).arduinoBus == this
      ensures scanner.scheduler == old(scanner.scheduler) || scanner.scheduler == null
      ensures outcome.Pass? && !ConnectionOf(c).isConnected
      ensures DelegatesDropped(c)
      ensures scanner.scanItems == old(ScanItemsAfterDisconnect(c, scanner.scanItems))
    {
      match c
      case InputPort(s) =>
        outcome := s.Disconnect();
      case OutputPort(d) =>
        outcome := d.connection.Disconnect();
    }

    /** One step of the private `disconnect`: disconnect one entry,
        ignoring its outcome, and remove it from the dictionary. */
    method DisconnectEntry(port: AnyGrovePiPortLabel, ghost all: map<AnyGrovePiPortLabel, ConnectablePort>)
      requires Valid() && port in portMap
      requires forall k :: k in portMap ==> k in all && portMap[k] == all[k]
      modifies this, scanner, scanner.scheduler, Footprint(portMap[port])
      ensures Valid() && trace == old(trace) && fdOpen == old(fdOpen)
      ensures portMap == old(portMap) - {port}
      ensures forall k :: k in portMap ==> k in all && portMap[k] == all[k]
      ensures scanner.scheduler == old(scanner.scheduler) || scanner.scheduler == null
      ensures forall k :: k in all && k !in portMap && (k in old(portMap) || !old(ConnectionOf(all[k]).isConnected)) ==>
        !ConnectionOf(all[k]).isConnected
      ensures forall k :: k in all && k !in portMap && (k in old(portMap) || old(DelegatesDropped(all[k]))) ==>
        DelegatesDropped(all[k])
      ensures scanner.scanItems == old(ScanItemsAfterDisconnect(portMap[port], scanner.scanItems))
    {
      var connection := portMap[port];
      var ignored := DisconnectPort(connection);
      portMap := portMap - {port};
    }

    /** The loop of the private `disconnect`: every entry is disconnected,
        its errors ignored, and removed until the dictionary is empty. */
    method DisconnectAll()
      requires Valid()
      modifies this, scanner, scanner.scheduler, Footprints(portMap)
      ensures Valid() && portMap == map[] && fdOpen == old(fdOpen) && trace == old(trace)
      ensures forall k :: k in old(portMap) ==> !ConnectionOf(old(portMap)[k]).isConnected
      ensures forall k :: k in old(portMap) ==> DelegatesDropped(old(portMap)[k])
      ensures scanner.scanItems == Scanner.WithoutFirstOf(old(scanner.scanItems), old(WatchedPorts(portMap)))
    {
      ghost var watched := WatchedPorts(portMap);
      assert watched - portMap.Keys == {};
      Scanner.WithoutNoLabels(scanner.scanItems);
      while portMap != map[]
        invariant Valid() && trace == old(trace) && fdOpen == old(fdOpen)
        invariant scanner.scheduler == old(scanner.scheduler) || scanner.scheduler == null
        invariant forall k :: k in portMap ==> k in old(portMap) && portMap[k] == old(portMap)[k]
        invariant forall k :: k in old(portMap) && k !in portMap ==> !ConnectionOf(old(portMap)[k]).isConnected
        invariant forall k :: k in old(portMap) && k !in portMap ==> DelegatesDropped(old(portMap)[k])
        invariant WatchedPorts(portMap) == watched * portMap.Keys
        invariant scanner.scanItems == Scanner.WithoutFirstOf(old(scanner.scanItems), watched - portMap.Keys)
        decreases |portMap|
      {
        var port :| port in portMap;
        FootprintInFootprints(old(portMap), port);
        DisconnectWatchedEntry(port, old(portMap), watched, old(scanner.scanItems));
      }
    }

    /** A turn of the loop of the private `disconnect`, with what it does
        to the scan list: the watched ports still in the dictionary lose
        this entry's port, and the list is the original one without the
        first item of each watched port disconnected so far. */
    method DisconnectWatchedEntry(port: AnyGrovePiPortLabel, ghost all: map<AnyGrovePiPortLabel, ConnectablePort>,
                                  ghost watched: set<AnyGrovePiPortLabel>, ghost items: seq<Scanner.ScanItem>)
      requires Valid() && port in portMap
      requires forall k :: k in portMap ==> k in all && portMap[k] == all[k]
      requires WatchedPorts(portMap) == watched * portMap.Keys
      requires scanner.scanItems == Scanner.WithoutFirstOf(items, watched - portMap.Keys)
      modifies this, scanner, scanner.scheduler, Footprint(portMap[port])
      ensures Valid() && trace == old(trace) && fdOpen == old(fdOpen)
      ensures portMap == old(portMap) - {port}
      ensures forall k :: k in portMap ==> k in all && portMap[k] == all[k]
      ensures scanner.scheduler == old(scanner.scheduler) || scanner.scheduler == null
      ensures forall k :: k in all && k !in portMap && (k in old(portMap) || !old(ConnectionOf(all[k]).isConnected)) ==>
        !ConnectionOf(all[k]).isConnected
      ensures forall k :: k in all && k !in portMap && (k in old(portMap) || old(DelegatesDropped(all[k]))) ==>
        DelegatesDropped(all[k])
      ensures WatchedPorts(portMap) == watched * portMap.Keys
      ensures scanner.scanItems == Scanner.WithoutFirstOf(items, watched - portMap.Keys)
    {
      ghost var visited := watched - portMap.Keys;
      ghost var rest := portMap - {port};
      ghost var entry := portMap[port];
      ghost var watchedRest := WatchedPorts(rest);
      assert watchedRest == watched * rest.Keys by {
        forall k ensures k in watchedRest <==> k in WatchedPorts(portMap) && k != port {
        }
      }
      ghost var before := scanner.scanItems;
      assert ScanItemsAfterDisconnect(entry, before) == if port in watched then Scanner.RemoveFirst(before, port) else before by {
        assert port in watched <==> port in WatchedPorts(portMap);
      }
      DisconnectEntry(port, all);
      assert scanner.scanItems == if port in watched then Scanner.RemoveFirst(before, port) else before;
      forall k | k in rest && rest[k].InputPort?
        ensures rest[k].source.inputChangedDelegates.delegates == old(rest[k].source.inputChangedDelegates.delegates)
      {
        assert rest[k].source.inputChangedDelegates !in Footprint(entry);
      }
      assert portMap == rest;
      assert WatchedPorts(portMap) == watchedRest by {
        forall k ensures k in WatchedPorts(portMap) <==> k in watchedRest {
        }
      }
      if port in watched {
        Scanner.RemoveFirstExtends(items, visited, port);
        assert watched - portMap.Keys == visited + {port};
      } else {
        assert watched - portMap.Keys == visited;
      }
    }

    /** The private `disconnect` run when the bus is disconnected: all
        entries are disconnected and removed, then the device file is
        closed. */
    method Teardown(closeErrno: Option<int>) returns (outcome: Outcome)
      requires Valid()
      modifies this, scanner, scanner.scheduler, Footprints(portMap)
      ensures Valid() && portMap == map[] && !fdOpen && trace == old(trace)
      ensures forall k :: k in old(portMap) ==> !ConnectionOf(old(portMap)[k]).isConnected
      ensures forall k :: k in old(portMap) ==> DelegatesDropped(old(portMap)[k])
      ensures scanner.scanItems == Scanner.WithoutFirstOf(old(scanner.scanItems), old(WatchedPorts(portMap)))
      ensures outcome == (if old(fdOpen) && closeErrno.Some? then Fail(CloseError(closeErrno.value)) else Pass)
    {
      DisconnectAll();
      outcome := CloseIO(closeErrno);
    }
  }

  lemma FootprintInFootprints(m: map<AnyGrovePiPortLabel, ConnectablePort>, k: AnyGrovePiPortLabel)
    requires k in m
    ensures Footprint(m[k]) <= Footprints(m)
  {
  }

  /** `ArduinoPortConnection`: the state every port connection shares. The
      bus is held weakly: it is null once the bus has been released. */
  class ArduinoPortConnection {
    var arduinoBus: GrovePiArduinoBus?
    const portLabel: PortLabel
    const ioMode: IOMode
    var isConnected: bool

    constructor(arduinoBus: GrovePiArduinoBus, portLabel: PortLabel, ioMode: IOMode)
      ensures this.arduinoBus == arduinoBus && this.portLabel == portLabel && this.ioMode == ioMode
      ensures !isConnected
    {
      this.arduinoBus := arduinoBus;
      this.portLabel := portLabel;
      this.ioMode := ioMode;
      isConnected := false;
    }

    /** `connect`: `DisconnectedBus` without a bus; nothing when already
        connected; otherwise the flag is set first and then the pin mode
        is sent, so a failing pin-mode write leaves the flag set. */
    method Connect(o: Oracle<()>) returns (outcome: Outcome)
      modifies this, arduinoBus
      ensures arduinoBus == old(arduinoBus)
      ensures arduinoBus == null ==> outcome == Fail(DisconnectedBus) && isConnected == old(isConnected)
      ensures arduinoBus != null ==>
        isConnected
        && arduinoBus.portMap == old(arduinoBus.portMap) && arduinoBus.fdOpen == old(arduinoBus.fdOpen)
        && arduinoBus.trace == old(arduinoBus.trace)
          + (if old(isConnected) then [] else [BlockWrite(SetIOModeFrame(portLabel.Id(), ioMode.RawValue()))])
        && outcome == (if old(isConnected) then Pass else AsOutcome(Retried(o)))
    {
      var bus := arduinoBus;
      if bus == null {
        return Fail(DisconnectedBus);
      }
      if isConnected {
        return Pass;
      }
      isConnected := true;
      outcome := bus.SetIOMode(portLabel.Id(), ioMode.RawValue(), o);
    }

    /** `disconnect`: `DisconnectedBus` without a bus (checked before the
        flag); otherwise the flag is cleared, which is nothing new when it
        was already clear. */
    method Disconnect() returns (outcome: Outcome)
      modifies this
      ensures arduinoBus == old(arduinoBus)
      ensures arduinoBus == null ==> outcome == Fail(DisconnectedBus) && isConnected == old(isConnected)
      ensures arduinoBus != null ==> outcome.Pass? && !isConnected
    {
      if arduinoBus == null {
        return Fail(DisconnectedBus);
      }
      if !isConnected {
        return Pass;
      }
      isConnected := false;
      outcome := Pass;
    }

    /** `checkConnectionIsOK`: the bus, or `DisconnectedBus` before
        `DisconnectedPort`. */
    function CheckConnectionIsOK(): (r: Result<GrovePiArduinoBus>)
      reads this
      ensures r.Ok? <==> arduinoBus != null && isConnected
      ensures r.Ok? ==> r.value == arduinoBus
      ensures arduinoBus == null ==> r == Err(DisconnectedBus)
      ensures arduinoBus != null && !isConnected ==> r == Err(DisconnectedPort(portLabel.Description()))
    {
      if arduinoBus == null then Err(DisconnectedBus)
      else if !isConnected then Err(DisconnectedPort(portLabel.Description()))
      else Ok(arduinoBus as GrovePiArduinoBus)
    }

    /** The weak reference clears when the bus is released. */
    method BusReleased()
      modifies this
      ensures arduinoBus == null && isConnected == old(isConnected)
    {
      arduinoBus := null;
    }

    /** The scanner of the bus, and its scheduler, which adding and removing
        scan items may change. */
    function ScannerFrame(): set<object>
      reads this, arduinoBus, if arduinoBus == null then {} else {arduinoBus.scanner}
    {
      if arduinoBus == null then {}
      else if arduinoBus.scanner.scheduler == null then {arduinoBus.scanner}
      else {arduinoBus.scanner, arduinoBus.scanner.scheduler}
    }
  }

  /** `==` on port connections: the same port label, which is the same
      kind and id. */
  function SamePort(lhs: ArduinoPortConnection, rhs: ArduinoPortConnection): (b: bool)
    ensures b <==> PortLabels.Equal(EquatablePortLabel(lhs.portLabel), EquatablePortLabel(rhs.portLabel))
  {
    PortLabels.EqualIffSameLabel(EquatablePortLabel(lhs.portLabel), EquatablePortLabel(rhs.portLabel));
    lhs.portLabel == rhs.portLabel
  }

  /** `ArduinoInputSource`: an input connection with its unit, protocol,
      change delegates, read parameters and last reported value. */
  class ArduinoInputSource {
    const connection: ArduinoPortConnection
    const inputUnit: InputUnit
    const inputProtocol: InputProtocol
    const inputChangedDelegates: MulticastDelegate<Delegates.AnyInputValueChangedDelegate<InputValue>, InputValue>
    const delayMicroseconds: Time
    const extraParameters: seq<byte>
    var lastChangedValue: Option<InputValue>

    /** The read parameters are two bytes and the last reported value is
        one the protocol produces. */
    predicate Valid()
      reads this
    {
      |extraParameters| == 2 && (lastChangedValue.Some? ==> Produces(inputProtocol, lastChangedValue.value))
    }

    /** `init`: no delegates, no value yet, the read parameters padded to
        two bytes, and the pin mode of the unit. */
    constructor(arduinoBus: GrovePiArduinoBus, portLabel: PortLabel, inputUnit: InputUnit, inputProtocol: InputProtocol)
      ensures Valid()
      ensures fresh(connection) && fresh(inputChangedDelegates)
      ensures connection.arduinoBus == arduinoBus && connection.portLabel == portLabel
      ensures connection.ioMode == inputUnit.ioMode && !connection.isConnected
      ensures this.inputUnit == inputUnit && this.inputProtocol == inputProtocol
      ensures inputChangedDelegates.delegates == [] && lastChangedValue.None?
      ensures extraParameters == PaddedParameters(Settings(inputProtocol).additionalParameters)
      ensures delayMicroseconds == Settings(inputProtocol).delay
    {
      this.inputUnit := inputUnit;
      this.inputProtocol := inputProtocol;
      inputChangedDelegates := new MulticastDelegate();
      delayMicroseconds := Settings(inputProtocol).delay;
      extraParameters := PaddedParameters(Settings(inputProtocol).additionalParameters);
      lastChangedValue := None;
      connection := new ArduinoPortConnection(arduinoBus, portLabel, inputUnit.ioMode);
    }

    /** The frame of this source's read command. */
    function ReadFrame(): Frame
      requires |extraParameters| == 2
    {
      Frame(Settings(inputProtocol).readCommand, connection.portLabel.Id(), extraParameters[0], extraParameters[1])
    }

    /** `readBytes`: the protocol's read command on this port; without a
        bus, `DisconnectedBus`. */
    method ReadBytes(io: BusIO) returns (r: Result<seq<byte>>)
      requires Valid()
      modifies connection.arduinoBus
      ensures connection.arduinoBus == null ==> r == Err(DisconnectedBus)
      ensures connection.arduinoBus != null ==>
        var bus := connection.arduinoBus;
        bus.portMap == old(bus.portMap) && bus.fdOpen == old(bus.fdOpen)
        && bus.trace == old(bus.trace) + ReadCommandOps(ReadFrame(), Settings(inputProtocol).responseValueLength, io)
        && r == ReadCommandResult(Settings(inputProtocol).responseValueLength, io)
    {
      var arduinoBus := connection.arduinoBus;
      if arduinoBus == null {
        return Err(DisconnectedBus);
      }
      var settings := Settings(inputProtocol);
      r := arduinoBus.ReadCommand(settings.readCommand, connection.portLabel.Id(), extraParameters[0], extraParameters[1],
                                  delayMicroseconds, settings.responseValueLength, io);
    }

    /** `readValue`: the connection check, then the read and the protocol's
        conversion; a failed check changes nothing. */
    method ReadValue(io: BusIO) returns (r: Result<InputValue>)
      requires Valid()
      modifies connection.arduinoBus
      ensures connection.arduinoBus != null ==>
        var bus := connection.arduinoBus;
        bus.portMap == old(bus.portMap) && bus.fdOpen == old(bus.fdOpen)
      ensures connection.CheckConnectionIsOK().Err? ==>
        r == Err(connection.CheckConnectionIsOK().error)
        && (connection.arduinoBus != null ==> connection.arduinoBus.trace == old(connection.arduinoBus.trace))
      ensures connection.CheckConnectionIsOK().Ok? ==>
        connection.arduinoBus.trace
          == old(connection.arduinoBus.trace) + ReadCommandOps(ReadFrame(), Settings(inputProtocol).responseValueLength, io)
        && r == ConvertResult(inputProtocol, ReadCommandResult(Settings(inputProtocol).responseValueLength, io))
    {
      var check := connection.CheckConnectionIsOK();
      if check.Err? {
        return Err(check.error);
      }
      var valueBytes := ReadBytes(io);
      r := ConvertResult(inputProtocol, valueBytes);
    }

    /** `addValueChangedDelegate`: after the connection check, append the
        delegate, and register a scan item for this port exactly when it is
        the first delegate. */
    method AddValueChangedDelegate(d: Delegates.AnyInputValueChangedDelegate<InputValue>, now: Time) returns (outcome: Outcome)
      requires connection.arduinoBus != null ==> connection.arduinoBus.scanner.Valid()
      modifies inputChangedDelegates, connection.ScannerFrame()
      ensures connection.arduinoBus != null ==> connection.arduinoBus.scanner.Valid()
      ensures connection.CheckConnectionIsOK().Err? ==>
        outcome == Fail(connection.CheckConnectionIsOK().error)
        && inputChangedDelegates.delegates == old(inputChangedDelegates.delegates)
        && (connection.arduinoBus != null ==>
              connection.arduinoBus.scanner.scanItems == old(connection.arduinoBus.scanner.scanItems))
      ensures connection.CheckConnectionIsOK().Ok? ==>
        var scanner := connection.arduinoBus.scanner;
        outcome.Pass? && inputChangedDelegates.delegates == old(inputChangedDelegates.delegates) + [d]
        && (|old(inputChangedDelegates.delegates)| == 0 ==>
              |scanner.scanItems| == |old(scanner.scanItems)| + 1
              && scanner.scanItems[..|old(scanner.scanItems)|] == old(scanner.scanItems)
              && scanner.scanItems[|old(scanner.scanItems)|].wrappedPortLabel == Erase(Concrete(connection.portLabel))
              && scanner.scanItems[|old(scanner.scanItems)|].sampleTimeInterval
                 == Scanner.StoredInterval(inputUnit.sampleTimeInterval))
        && (|old(inputChangedDelegates.delegates)| > 0 ==> scanner.scanItems == old(scanner.scanItems))
    {
      var check := connection.CheckConnectionIsOK();
      if check.Err? {
        return Fail(check.error);
      }
      var arduinoBus := check.value;
      inputChangedDelegates.AddDelegate(d);
      if inputChangedDelegates.Count() == 1 {
        arduinoBus.scanner.AddScanItem(Concrete(connection.portLabel), inputUnit.sampleTimeInterval, now);
      }
      outcome := Pass;
    }

    /** `removeValueChangedDelegate`: after the connection check, remove
        every entry equal to the delegate, and ask the scanner to drop this
        port's item whenever no delegate is left. */
    method RemoveValueChangedDelegate(d: Delegates.AnyInputValueChangedDelegate<InputValue>) returns (outcome: Outcome)
      requires connection.arduinoBus != null ==> connection.arduinoBus.scanner.Valid()
      modifies inputChangedDelegates, connection.ScannerFrame()
      ensures connection.arduinoBus != null ==> connection.arduinoBus.scanner.Valid()
      ensures connection.CheckConnectionIsOK().Err? ==>
        outcome == Fail(connection.CheckConnectionIsOK().error)
        && inputChangedDelegates.delegates == old(inputChangedDelegates.delegates)
        && (connection.arduinoBus != null ==>
              connection.arduinoBus.scanner.scanItems == old(connection.arduinoBus.scanner.scanItems))
      ensures connection.CheckConnectionIsOK().Ok? ==>
        var scanner := connection.arduinoBus.scanner;
        outcome.Pass? && inputChangedDelegates.delegates == Without(old(inputChangedDelegates.delegates), d)
        && scanner.scanItems == (if |inputChangedDelegates.delegates| == 0
                                 then Scanner.RemoveFirst(old(scanner.scanItems), Erase(Concrete(connection.portLabel)))
                                 else old(scanner.scanItems))
    {
      var check := connection.CheckConnectionIsOK();
      if check.Err? {
        return Fail(check.error);
      }
      var arduinoBus := check.value;
      inputChangedDelegates.RemoveDelegate(d);
      if inputChangedDelegates.Count() == 0 {
        arduinoBus.scanner.RemoveScanItem(Concrete(connection.portLabel));
      }
      outcome := Pass;
    }

    /** The input source's `disconnect`: the shared `disconnect`, and then,
        when there are delegates, drop them all and ask the scanner to drop
        this port's item. */
    method Disconnect() returns (outcome: Outcome)
      requires connection.arduinoBus != null ==> connection.arduinoBus.scanner.Valid()
      modifies connection, inputChangedDelegates, connection.ScannerFrame()
      ensures connection.arduinoBus == old(connection.arduinoBus)
      ensures connection.arduinoBus != null ==> connection.arduinoBus.scanner.Valid()
      ensures connection.arduinoBus != null ==>
        connection.arduinoBus.scanner.scheduler == old(connection.arduinoBus.scanner.scheduler)
        || connection.arduinoBus.scanner.scheduler == null
      ensures connection.arduinoBus == null ==>
        outcome == Fail(DisconnectedBus) && connection.isConnected == old(connection.isConnected)
        && inputChangedDelegates.delegates == old(inputChangedDelegates.delegates)
      ensures connection.arduinoBus != null ==>
        var scanner := connection.arduinoBus.scanner;
        outcome.Pass? && !connection.isConnected && inputChangedDelegates.delegates == []
        && scanner.scanItems == (if |old(inputChangedDelegates.delegates)| > 0
                                 then Scanner.RemoveFirst(old(scanner.scanItems), Erase(Concrete(connection.portLabel)))
                                 else old(scanner.scanItems))
    {
      outcome := connection.Disconnect();
      if outcome.Fail? {
        return;
      }
      var arduinoBus := connection.arduinoBus;
      if inputChangedDelegates.Count() > 0 {
        inputChangedDelegates.RemoveAllDelegates();
        arduinoBus.scanner.RemoveScanItem(Concrete(connection.portLabel));
      }
    }

    /** `valueChangedEvaluation`, the scan item's evaluation: read the
        value; when there is no earlier reported value or the change is
        significant, notify every delegate in order with the value and the
        time t and remember the value as the last reported one. A failed
        read throws and changes nothing. */
    method ValueChangedEvaluation(t: Time, io: BusIO) returns (outcome: Outcome, notified: seq<Delegates.Delivery<InputValue>>)
      requires Valid()
      modifies this, connection.arduinoBus
      ensures Valid()
      ensures connection.arduinoBus != null ==>
        var bus := connection.arduinoBus;
        bus.portMap == old(bus.portMap) && bus.fdOpen == old(bus.fdOpen)
      ensures connection.CheckConnectionIsOK().Err? && connection.arduinoBus != null ==>
        connection.arduinoBus.trace == old(connection.arduinoBus.trace)
      ensures connection.CheckConnectionIsOK().Ok? ==>
        connection.arduinoBus.trace
          == old(connection.arduinoBus.trace) + ReadCommandOps(ReadFrame(), Settings(inputProtocol).responseValueLength, io)
      ensures var r := if connection.CheckConnectionIsOK().Ok?
                       then ConvertResult(inputProtocol, ReadCommandResult(Settings(inputProtocol).responseValueLength, io))
                       else Err(connection.CheckConnectionIsOK().error);
        (r.Err? ==> outcome == Fail(r.error) && notified == [] && lastChangedValue == old(lastChangedValue))
        && (r.Ok? ==>
              outcome.Pass?
              && (old(lastChangedValue) != Some(r.value) ==>
                    lastChangedValue == Some(r.value)
                    && |notified| == |inputChangedDelegates.delegates|
                    && forall i :: 0 <= i < |notified| ==>
                         notified[i] == Delegates.NewInputValue(inputChangedDelegates.delegates[i], r.value, t))
              && (old(lastChangedValue) == Some(r.value) ==> notified == [] && lastChangedValue == old(lastChangedValue)))
    {
      var read := ReadValue(io);
      notified := [];
      if read.Err? {
        return Fail(read.error), [];
      }
      var newValue := read.value;
      var previousValue := lastChangedValue;
      if previousValue.Some? {
        SignificantIffDifferent(inputProtocol, newValue, previousValue.value);
      }
      if previousValue.None? || IsDifferenceSignificant(inputProtocol, newValue, previousValue.value) {
        var receivers := inputChangedDelegates.Invoke(newValue);
        notified := seq(|receivers|, i requires 0 <= i < |receivers| => Delegates.NewInputValue(receivers[i], newValue, t));
        lastChangedValue := Some(newValue);
      }
      outcome := Pass;
    }
  }

  /** `==` on input sources: the same port label and an equal unit. */
  function SameInputSource(lhs: ArduinoInputSource, rhs: ArduinoInputSource): (b: bool)
    ensures b ==> SamePort(lhs.connection, rhs.connection)
    ensures b <==> lhs.connection.portLabel == rhs.connection.portLabel && lhs.inputUnit == rhs.inputUnit
  {
    SamePort(lhs.connection, rhs.connection) && lhs.inputUnit == rhs.inputUnit
  }

  /** `ArduinoOutputDestination`: an output connection with its unit and
      protocol. */
  class ArduinoOutputDestination {
    const connection: ArduinoPortConnection
    const outputUnit: OutputUnit
    const outputProtocol: OutputProtocol

    constructor(arduinoBus: GrovePiArduinoBus, portLabel: PortLabel, outputUnit: OutputUnit, outputProtocol: OutputProtocol)
      ensures fresh(connection)
      ensures connection.arduinoBus == arduinoBus && connection.portLabel == portLabel
      ensures connection.ioMode == outputUnit.ioMode && !connection.isConnected
      ensures this.outputUnit == outputUnit && this.outputProtocol == outputProtocol
    {
      this.outputUnit := outputUnit;
      this.outputProtocol := outputProtocol;
      connection := new ArduinoPortConnection(arduinoBus, portLabel, outputUnit.ioMode);
    }

    /** The bus operations a write of `value` puts on a usable connection:
        one `writeCommand` frame for an Arduino-command protocol, else the
        calls of the display's or the motor driver's write sequence that
        are made before the first failing one. `o` is the oracle of the
        only frame, or of the motor's speed frame; `direction` is the
        oracle of the motor's direction frame; `calls` gives the outcomes of
        the other calls of a write sequence. */
    function WriteOps(value: OutputValue, o: Oracle<()>, direction: Oracle<()>, calls: CallOutcomes): (ops: seq<BusOp>)
      requires Accepts(outputProtocol, value)
      ensures WriteCommandOf(outputProtocol).Arduino? ==>
        ops == [BlockWrite(WriteFrame(WriteCommandOf(outputProtocol).command, connection.portLabel.Id(),
                                      ConvertOutput(outputProtocol, value)))]
      ensures WriteCommandOf(outputProtocol).Other? && value.Gears? ==> ops <= MotorDrive.WriteOps(value.gearAndDirection)
      ensures WriteCommandOf(outputProtocol).Other? && value.Text? ==> ops <= Display.DisplayOps(value.displayText)
    {
      match WriteCommandOf(outputProtocol)
      case Arduino(command) => [BlockWrite(WriteFrame(command, connection.portLabel.Id(), ConvertOutput(outputProtocol, value)))]
      case Other =>
        if value.Gears? then
          var ops := MotorDrive.WriteOps(value.gearAndDirection);
          Sent(ops, MotorCalls(ops, calls, o, direction))
        else Sent(Display.DisplayOps(value.displayText), calls)
    }

    /** The outcome of a write on a usable connection: the frame's retried
        write, or the error of the first failing call of the write
        sequence, or else the display's text check. */
    function WriteOutcome(value: OutputValue, o: Oracle<()>, direction: Oracle<()>, calls: CallOutcomes): (outcome: Outcome)
      requires Accepts(outputProtocol, value)
      ensures WriteCommandOf(outputProtocol).Arduino? ==> (outcome.Pass? <==> Retried(o).Done?)
      ensures WriteCommandOf(outputProtocol).Other? && value.Gears? ==>
        var ops := MotorDrive.WriteOps(value.gearAndDirection);
        (outcome.Pass? <==> forall i :: 0 <= i < |ops| ==> MotorCalls(ops, calls, o, direction)(i).Pass?)
      ensures WriteCommandOf(outputProtocol).Other? && value.Text? ==>
        var ops := Display.DisplayOps(value.displayText);
        (outcome.Pass? <==> Display.DisplayOutcome(value.displayText).Pass? && forall i :: 0 <= i < |ops| ==> calls(i).Pass?)
    {
      match WriteCommandOf(outputProtocol)
      case Arduino(_) => AsOutcome(Retried(o))
      case Other =>
        if value.Gears? then
          var ops := MotorDrive.WriteOps(value.gearAndDirection);
          SequenceOutcome(ops, MotorCalls(ops, calls, o, direction), Pass)
        else SequenceOutcome(Display.DisplayOps(value.displayText), calls, Display.DisplayOutcome(value.displayText))
    }

    /** `writeValue`: after the connection check, an Arduino-command
        protocol sends one `writeCommand` frame with the converted value on
        this port; the display and the motor driver make the calls of their
        own write sequences until one fails. */
    method WriteValue(value: OutputValue, o: Oracle<()>, direction: Oracle<()>, calls: CallOutcomes) returns (outcome: Outcome)
      requires Accepts(outputProtocol, value)
      requires connection.CheckConnectionIsOK().Ok? && value.Text? ==> !Display.Traps(value.displayText, calls)
      modifies connection.arduinoBus
      ensures connection.CheckConnectionIsOK().Err? ==>
        outcome == Fail(connection.CheckConnectionIsOK().error)
        && (connection.arduinoBus != null ==> connection.arduinoBus.trace == old(connection.arduinoBus.trace))
      ensures connection.CheckConnectionIsOK().Ok? ==>
        var bus := connection.arduinoBus;
        bus.portMap == old(bus.portMap) && bus.fdOpen == old(bus.fdOpen)
      ensures connection.CheckConnectionIsOK().Ok? ==>
        connection.arduinoBus.trace == old(connection.arduinoBus.trace) + WriteOps(value, o, direction, calls)
        && outcome == WriteOutcome(value, o, direction, calls)
    {
      var check := connection.CheckConnectionIsOK();
      if check.Err? {
        return Fail(check.error);
      }
      var arduinoBus := check.value;
      match WriteCommandOf(outputProtocol)
      case Arduino(command) =>
        outcome := arduinoBus.WriteCommand(command, connection.portLabel.Id(), ConvertOutput(outputProtocol, value), o);
      case Other =>
        var sent;
        if value.Gears? {
          var ops := MotorDrive.WriteOps(value.gearAndDirection);
          sent, outcome := MotorDrive.OtherWriteCommand(value.gearAndDirection, MotorCalls(ops, calls, o, direction));
        } else {
          sent, outcome := Display.OtherWriteCommand(value.displayText, calls);
        }
        arduinoBus.OtherWriteCommand(sent);
    }
  }

  /** The outcome of each call of the motor driver's write sequence `ops`:
      a frame goes through the retried block write, the speed frame with
      oracle `speed` and the direction frame with oracle `direction`; an
      address selection has the outcome `calls` gives it. */
  function MotorCalls(ops: seq<BusOp>, calls: CallOutcomes, speed: Oracle<()>, direction: Oracle<()>): (r: CallOutcomes)
    ensures forall i: nat :: i < |ops| && ops[i].SelectAddress? ==> r(i) == calls(i)
    ensures forall i: nat :: i < |ops| && ops[i].BlockWrite? && ops[i].frame.command == MotorDrive.MotorSpeedCommand ==>
      r(i) == AsOutcome(Retried(speed))
  {
    (i: nat) =>
      if i < |ops| && ops[i].BlockWrite? then
        AsOutcome(Retried(if ops[i].frame.command == MotorDrive.MotorSpeedCommand then speed else direction))
      else calls(i)
  }

  /** A motor value with both gears and both directions passes exactly when
      both address selections pass and both frames get through within their
      retries; when the speed frame's retries are used up, the direction
      write is never made and the last attempt's errno is the error. */
  lemma MotorWriteStopsAtFailedFrame(a: MotorDrive.MotorGearAndDirection, b: MotorDrive.MotorGearAndDirection,
                                     calls: CallOutcomes, speed: Oracle<()>, direction: Oracle<()>)
    requires a.gear.Some? && b.gear.Some? && a.direction.Some? && b.direction.Some?
    ensures var ops := MotorDrive.WriteOps(MotorDrive.DualMotorGearAndDirection(a, b));
      var motorCalls := MotorCalls(ops, calls, speed, direction);
      (SequenceOutcome(ops, motorCalls, Pass).Pass? <==>
         calls(0).Pass? && Retried(speed).Done? && calls(2).Pass? && Retried(direction).Done?)
      && (calls(0).Pass? && Retried(speed).Failed? ==>
            Sent(ops, motorCalls) == ops[..2]
            && SequenceOutcome(ops, motorCalls, Pass) == Fail(IOError(Retried(speed).errno)))
  {
    var ops := MotorDrive.WriteOps(MotorDrive.DualMotorGearAndDirection(a, b));
    var motorCalls := MotorCalls(ops, calls, speed, direction);
    assert |ops| == 4;
    assert ops[1].BlockWrite? && ops[1].frame.command == MotorDrive.MotorSpeedCommand;
    assert ops[3].BlockWrite? && ops[3].frame.command == MotorDrive.MotorDirectionCommand;
    assert !ops[0].BlockWrite? && !ops[2].BlockWrite?;
    assert motorCalls(0) == calls(0) && motorCalls(2) == calls(2);
    assert motorCalls(1) == AsOutcome(Retried(speed)) && motorCalls(3) == AsOutcome(Retried(direction));
    if calls(0).Pass? && Retried(speed).Failed? {
      MotorDrive.SpeedFailureSkipsDirection(a, b, motorCalls, 1);
      assert FirstFailure(|ops|, motorCalls) == 1;
    }
  }

  /** `==` on output destinations: the same port label and an equal unit. */
  function SameOutputDestination(lhs: ArduinoOutputDestination, rhs: ArduinoOutputDestination): (b: bool)
    ensures b ==> SamePort(lhs.connection, rhs.connection)
    ensures b <==> lhs.connection.portLabel == rhs.connection.portLabel && lhs.outputUnit == rhs.outputUnit
  {
    SamePort(lhs.connection, rhs.connection) && lhs.outputUnit == rhs.outputUnit
  }

  /** The 8-bit write of v on port p is the frame (4, p, v, 0). */
  lemma Range256WriteFrame(portID: byte, v: byte)
    ensures WriteCommandOf(Range256Protocol) == Arduino(4)
    ensures WriteFrame(4, portID, ConvertOutput(Range256Protocol, Range256(v))) == Frame(4, portID, v, 0)
  {
  }

  /** `GrovePiArduinoBus.bus`, the shared bus: created on first use and
      cleared before its teardown runs. */
  class BusSingleton {
    var bus: GrovePiArduinoBus?

    constructor()
      ensures bus == null
    {
      bus := null;
    }

    /** The objects the shared bus and its connections consist of. */
    function BusFrame(): set<object>
      reads this, bus, if bus == null then {} else {bus.scanner}
    {
      if bus == null then {}
      else
        {bus, bus.scanner} + (if bus.scanner.scheduler == null then {} else {bus.scanner.scheduler})
        + Footprints(bus.portMap)
    }

    /** `connectBus`: a bus exists after the first successful call, and
        every later call returns that same bus. A failing `openIO` (its
        errors are the parameters) leaves no bus. */
    method ConnectBus(openErrno: Option<int>, ioctlErrno: Option<int>) returns (r: Result<GrovePiArduinoBus>)
      modifies this
      ensures old(bus) != null ==> bus == old(bus) && r.Ok? && r.value == bus
      ensures old(bus) == null && openErrno.Some? ==> bus == null && r == Err(OpenError(openErrno.value))
      ensures old(bus) == null && openErrno.None? && ioctlErrno.Some? ==> bus == null && r == Err(IOError(ioctlErrno.value))
      ensures old(bus) == null && openErrno.None? && ioctlErrno.None? ==>
        bus != null && fresh(bus) && r.Ok? && r.value == bus && bus.Valid() && bus.portMap == map[] && bus.fdOpen
    {
      if bus == null {
        var created := new GrovePiArduinoBus();
        var openOutcome := created.OpenIO(openErrno, ioctlErrno);
        if openOutcome.Fail? {
          return Err(openOutcome.error);
        }
        bus := created;
      }
      r := Ok(bus as GrovePiArduinoBus);
    }

    /** `disconnectBus`: nothing without a bus; otherwise the shared bus is
        cleared whatever the teardown's outcome, and the teardown leaves its
        dictionary empty and its device file closed. */
    method DisconnectBus(closeErrno: Option<int>) returns (outcome: Outcome)
      requires bus != null ==> bus.Valid()
      modifies this, BusFrame()
      ensures bus == null
      ensures old(bus) == null ==> outcome.Pass?
      ensures old(bus) != null ==>
        old(bus).portMap == map[] && !old(bus).fdOpen
        && outcome == (if old(bus.fdOpen) && closeErrno.Some? then Fail(CloseError(closeErrno.value)) else Pass)
    {
      if bus == null {
        return Pass;
      }
      var released := bus;
      assert {released, released.scanner} + (if released.scanner.scheduler == null then {} else {released.scanner.scheduler})
        + Footprints(released.portMap) == BusFrame();
      bus := null;
      outcome := released.Teardown(closeErrno);
    }
  }
}
