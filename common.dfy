/** Values shared by every part of the GrovePi driver model: bytes, optional
    values, the driver's error enumeration and the result of a throwing call. */
module Common {

  /** An unsigned 8-bit value (Swift's UInt8). */
  type byte = b: int | 0 <= b < 256

  /** An unsigned 16-bit value (Swift's UInt16). */
  type uint16 = v: int | 0 <= v < 0x1_0000

  /** Time since the reference date, in microseconds (Swift's TimeInterval,
      which counts seconds as a Double, scaled to whole microseconds). */
  type Time = int

  const MicrosecondsPerSecond: int := 1_000_000

  datatype Option<T> = None | Some(value: T)

  /** The errors thrown by the driver (GrovePiError). Operating system error
      codes are kept as plain integers. */
  datatype GrovePiError =
    | OpenError(osError: int)
    | IOError(osError: int)
    | CloseError(osError: int)
    | AlreadyOccupiedPort(portDescription: string)
    | UnsupportedPortTypeForUnit(unitDescription: string, portTypeDescription: string)
    | DisconnectedBus
    | DisconnectedPort(portDescription: string)
    | UnsupportedOutputValue(outputValueDescription: string)

  /** The outcome of a Swift function that `throws` and returns a value. */
  datatype Result<T> = Ok(value: T) | Err(error: GrovePiError)

  /** The outcome of a Swift function that `throws` and returns nothing. */
  datatype Outcome = Pass | Fail(error: GrovePiError)

  /** The fixed 4-byte frame written to the board by one block write:
      a command byte followed by three parameter bytes. */
  datatype Frame = Frame(command: byte, p1: byte, p2: byte, p3: byte)

  /** One operation put on the I2C bus, as recorded in a bus trace: a 4-byte
      block write, a byte or block read, selecting a device address, or a
      write of one value to one device register. */
  datatype BusOp =
    | BlockWrite(frame: Frame)
    | ByteRead
    | BlockRead
    | SelectAddress(address: byte)
    | RegisterWrite(register: byte, value: byte)
}
