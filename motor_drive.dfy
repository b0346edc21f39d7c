/** The dual motor driver on an I2C port: the gear-and-direction value
    written to it and the speed and direction frames. */
module MotorDrive {
  import opened Common
  import opened Calls

  datatype MotorDirection = Forward | Backward

  /** One motor's requested gear (speed) and direction; either may be left
      out. */
  datatype MotorGearAndDirection = MotorGearAndDirection(gear: Option<byte>, direction: Option<MotorDirection>)

  /** `MotorGearAndDirection(gear:direction:)`. */
  function GearAndDirection(gear: byte, direction: MotorDirection): (m: MotorGearAndDirection)
    ensures m.gear == Some(gear) && m.direction == Some(direction)
  {
    MotorGearAndDirection(Some(gear), Some(direction))
  }

  /** `MotorGearAndDirection(direction:)`. */
  function DirectionOnly(direction: MotorDirection): (m: MotorGearAndDirection)
    ensures m.gear.None? && m.direction == Some(direction)
  {
    MotorGearAndDirection(None, Some(direction))
  }

  /** `MotorGearAndDirection(gear:)`. */
  function GearOnly(gear: byte): (m: MotorGearAndDirection)
    ensures m.gear == Some(gear) && m.direction.None?
  {
    MotorGearAndDirection(Some(gear), None)
  }

  datatype DualMotorGearAndDirection = DualMotorGearAndDirection(motorA: MotorGearAndDirection, motorB: MotorGearAndDirection)

  /** `init(motorAB:)`: both motors get the same setting. */
  function MotorAB(motorAB: MotorGearAndDirection): (d: DualMotorGearAndDirection)
    ensures d.motorA == d.motorB == motorAB
  {
    DualMotorGearAndDirection(motorAB, motorAB)
  }

  /** `init(gearA:gearB:)`. */
  function Gears(gearA: byte, gearB: byte): (d: DualMotorGearAndDirection)
    ensures d.motorA.gear == Some(gearA) && d.motorB.gear == Some(gearB)
    ensures d.motorA.direction.None? && d.motorB.direction.None?
  {
    DualMotorGearAndDirection(GearOnly(gearA), GearOnly(gearB))
  }

  /** `init(gearAB:)`. */
  function GearAB(gearAB: byte): (d: DualMotorGearAndDirection)
    ensures d.motorA == d.motorB && d.motorA.gear == Some(gearAB) && d.motorA.direction.None?
  {
    MotorAB(GearOnly(gearAB))
  }

  /** `init(directionAB:)`. */
  function DirectionAB(directionAB: MotorDirection): (d: DualMotorGearAndDirection)
    ensures d.motorA == d.motorB && d.motorA.gear.None? && d.motorA.direction == Some(directionAB)
  {
    MotorAB(DirectionOnly(directionAB))
  }

  /** `init(directionA:directionB:)`. */
  function Directions(directionA: MotorDirection, directionB: MotorDirection): (d: DualMotorGearAndDirection)
    ensures d.motorA.gear.None? && d.motorB.gear.None?
    ensures d.motorA.direction == Some(directionA) && d.motorB.direction == Some(directionB)
  {
    DualMotorGearAndDirection(DirectionOnly(directionA), DirectionOnly(directionB))
  }

  const DualMotorDriverAddress: byte := 0x0F
  const MotorSpeedCommand: byte := 0x82
  const MotorDirectionCommand: byte := 0xAA

  /** `write(motorGearA:motorGearB:)`: select the driver and send the speed
      frame with both gears. */
  function SpeedOps(gearA: byte, gearB: byte): (ops: seq<BusOp>)
    ensures |ops| == 2 && ops[0] == SelectAddress(DualMotorDriverAddress) && ops[1].BlockWrite?
    ensures ops[1].frame.command == MotorSpeedCommand && ops[1].frame.p1 == gearA && ops[1].frame.p2 == gearB
  {
    [SelectAddress(DualMotorDriverAddress), BlockWrite(Frame(MotorSpeedCommand, gearA, gearB, 0))]
  }

  /** The direction byte as written: both bit pairs are taken from the
      direction of motor A. The bits are disjoint, so their or is a sum. */
  function DirectionByte(directionA: MotorDirection, directionB: MotorDirection): (b: byte)
    ensures b == 0x0A <==> directionA == Forward
    ensures b == 0x05 <==> directionA == Backward
  {
    (if directionA == Forward then 0x08 else 0x04) + (if directionA == Forward then 0x02 else 0x01)
  }

  /** `write(motorDirectionA:motorDirectionB:)`: select the driver and send
      the direction frame. */
  function DirectionOps(directionA: MotorDirection, directionB: MotorDirection): (ops: seq<BusOp>)
    ensures |ops| == 2 && ops[0] == SelectAddress(DualMotorDriverAddress) && ops[1].BlockWrite?
    ensures ops[1].frame.command == MotorDirectionCommand
    ensures ops[1].frame.p1 == (if directionA == Forward then 0x0A else 0x05) && ops[1].frame.p2 == 0
  {
    [SelectAddress(DualMotorDriverAddress),
     BlockWrite(Frame(MotorDirectionCommand, DirectionByte(directionA, directionB), 0, 0))]
  }

  /** The direction of motor B has no effect on what is sent. */
  lemma DirectionOfMotorBIgnored(directionA: MotorDirection, b1: MotorDirection, b2: MotorDirection)
    ensures DirectionOps(directionA, b1) == DirectionOps(directionA, b2)
    ensures DirectionOps(Forward, Backward) == DirectionOps(Forward, Forward)
  {
  }

  /** The frames a value leads to: the speed frame when both gears are
      given, then the direction frame when both directions are given. */
  function WriteOps(value: DualMotorGearAndDirection): (ops: seq<BusOp>)
    ensures var a, b := value.motorA, value.motorB;
      |ops| == (if a.gear.Some? && b.gear.Some? then 2 else 0) + (if a.direction.Some? && b.direction.Some? then 2 else 0)
    ensures var a, b := value.motorA, value.motorB;
      a.gear.Some? && b.gear.Some? ==> ops[..2] == SpeedOps(a.gear.value, b.gear.value)
    ensures var a, b := value.motorA, value.motorB;
      a.direction.Some? && b.direction.Some? ==> ops[|ops| - 2..] == DirectionOps(a.direction.value, b.direction.value)
  {
    var a, b := value.motorA, value.motorB;
    (if a.gear.Some? && b.gear.Some? then SpeedOps(a.gear.value, b.gear.value) else [])
      + (if a.direction.Some? && b.direction.Some? then DirectionOps(a.direction.value, b.direction.value) else [])
  }

  /** `otherWriteCommandImplementation`: the speed write, if both gears are
      given, then the direction write, if both directions are given, each
      an address selection followed by a frame. Every call is a `try`:
      `calls` gives each call's outcome and the first failure ends the
      write. */
  method OtherWriteCommand(value: DualMotorGearAndDirection, calls: CallOutcomes) returns (sent: seq<BusOp>, outcome: Outcome)
    ensures sent == Sent(WriteOps(value), calls)
    ensures outcome == SequenceOutcome(WriteOps(value), calls, Pass)
  {
    var ops := [];
    if value.motorA.gear.Some? && value.motorB.gear.Some? {
      ops := ops + SpeedOps(value.motorA.gear.value, value.motorB.gear.value);
    }
    if value.motorA.direction.Some? && value.motorB.direction.Some? {
      ops := ops + DirectionOps(value.motorA.direction.value, value.motorB.direction.value);
    }
    sent, outcome := PerformCalls(ops, calls, Pass);
  }

  /** With both gears and both directions given, a failure of the speed
      write ends the write before the direction write: only its own calls
      are made and its error is the write's error. */
  lemma SpeedFailureSkipsDirection(a: MotorGearAndDirection, b: MotorGearAndDirection, calls: CallOutcomes, i: nat)
    requires a.gear.Some? && b.gear.Some? && a.direction.Some? && b.direction.Some?
    requires i < 2 && calls(i).Fail?
    ensures var ops := WriteOps(DualMotorGearAndDirection(a, b));
      Sent(ops, calls) == Sent(SpeedOps(a.gear.value, b.gear.value), calls)
      && |Sent(ops, calls)| <= 2
      && SequenceOutcome(ops, calls, Pass) == calls(|Sent(ops, calls)| - 1)
  {
    var speed := SpeedOps(a.gear.value, b.gear.value);
    var direction := DirectionOps(a.direction.value, b.direction.value);
    assert WriteOps(DualMotorGearAndDirection(a, b)) == speed + direction;
    FailureInFirstPart(speed, direction, calls, Pass, i);
  }

  /** Gear-only values send only the speed frame (gear A, gear B, 0). */
  lemma GearInitsSendOnlySpeed(gearA: byte, gearB: byte)
    ensures WriteOps(Gears(gearA, gearB)) == SpeedOps(gearA, gearB)
    ensures WriteOps(GearAB(gearA)) == SpeedOps(gearA, gearA)
    ensures WriteOps(Gears(gearA, gearB))[1] == BlockWrite(Frame(0x82, gearA, gearB, 0))
  {
  }

  /** Direction-only values send only the direction frame. */
  lemma DirectionInitsSendOnlyDirection(directionA: MotorDirection, directionB: MotorDirection)
    ensures WriteOps(Directions(directionA, directionB)) == DirectionOps(directionA, directionB)
    ensures WriteOps(DirectionAB(directionA)) == DirectionOps(directionA, directionA)
  {
  }

  /** A value with a gear and a direction for each motor sends the speed
      frame first and the direction frame second; a value missing a gear or
      a direction for one motor sends neither frame of that kind. */
  lemma SpeedBeforeDirection(a: MotorGearAndDirection, b: MotorGearAndDirection)
    ensures a.gear.Some? && b.gear.Some? && a.direction.Some? && b.direction.Some? ==>
      WriteOps(DualMotorGearAndDirection(a, b))
      == SpeedOps(a.gear.value, b.gear.value) + DirectionOps(a.direction.value, b.direction.value)
    ensures a.gear.None? && a.direction.None? ==> WriteOps(DualMotorGearAndDirection(a, b)) == []
  {
  }
}
