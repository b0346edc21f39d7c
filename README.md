# GrovePiIO in Dafny

This project models the bookkeeping of GrovePiIO, a Swift driver for the
GrovePi board: an Arduino that sits on a Raspberry Pi's I2C bus and serves
sensors and actuators plugged into its analogue, digital, I2C and UART
ports. The model follows the driver's own structure:

- The **bus** keeps a dictionary from erased port labels to port
  connections. It connects inputs and outputs with three outcomes: an
  idempotent reconnect, `AlreadyOccupiedPort` or
  `UnsupportedPortTypeForUnit`. It frames every command as one 4-byte block
  write, copies a read's response out of a status byte and a 32-byte block,
  and retries every low-level call at most nine times.
- **Port connections** hold a weak reference to the bus and a connected
  flag. Input sources keep a multicast list of change delegates, register
  a scan item on the first subscriber, and report a value only when it
  differs significantly from the last one reported.
- The **change scanner** keeps a list of scan items, a polling scheduler
  that exists exactly while the list is non-empty, and each item's
  next-due time, which advances by whole sample intervals.
- **Multicast lists** come in a strong variant compared by `==` and a weak
  variant whose dead references are pruned. The **delegate wrappers** and
  **erased port labels and destinations** compare by concrete type first.
- The **wire codecs**: big-endian 16-bit decoding, the "compress"
  conversion, little-endian 32-bit pattern assembly, the LCD colour and
  text sequences, and the motor-driver frames.
- **Earlier revisions** that still hold logic: the bus-access object with
  keyed scan maps and slot/type report ids, the older scanner with aligned
  start times, the older bus whose connect guard is inverted, and the
  sensor-object bus with its command codes and direct read/write codecs.

The model's conventions:

- Stateful objects are classes whose methods state their whole new state.
- Values, codecs and enumerations are datatypes and functions.
- A bus transaction is recorded as a trace of `BusOp` values.
- The outcome of each attempt of a C call is an oracle parameter
  (`Oracle<R> = nat -> Attempt<R>`).
- Time is whole microseconds since the reference date.
- A Swift `throws` becomes a `Result` or an `Outcome`.

Where the code and its names or comments disagree, the model follows the
code and states the difference as a lemma:

- the documentation of `UInt8(compressFromRange1024:)` promises a division
  by four that the code does not perform;
- motor direction B is never sent;
- the earlier bus's connect guard is inverted;
- the connected flag is set before the pin-mode command is sent;
- the LCD loop also sees the C string's terminating zero.

The current bus's `readCommand` takes no gap parameters, although
`ArduinoInputSource.readBytes` passes gap values. The model follows
`readCommand`, whose signature it uses, and keeps the gaps out.

## Model

| member | source | states |
|---|---|---|
| GrovePiIO.IOMode.RawValue | Sources/GrovePiIO.swift:9-12 | input is 0 and output is 1 |
| GrovePiIO.IOModeFromRaw | Sources/GrovePiIO.swift:9-12 | `IOMode(rawValue:)` succeeds exactly for 0 and 1 and inverts the raw value |
| GrovePiIO.IOModeRawRoundTrip | Sources/GrovePiIO.swift:9-12 | raw value and `init(rawValue:)` are inverse both ways |
| GrovePiIO.GrovePiPort.Id | Sources/GrovePiIO.swift:14-26 | the id is the raw value modulo 10 |
| GrovePiIO.PortIds | Sources/GrovePiIO.swift:14-26 | A0..A2 have ids 0..2 and D2..D8 have ids 2..8 |
| GrovePiIO.IdSharedOnlyByA2AndD2 | Sources/GrovePiIO.swift:14-26 | two distinct ports share an id only for A2 and D2 |
| GrovePiIO.DigitalValue.RawValue | Sources/GrovePiIO.swift:29-32 | low is 0 and high is 1 |
| GrovePiIO.DigitalValueFromRaw | Sources/GrovePiIO.swift:29-32 | `DigitalValue(rawValue:)` succeeds exactly for 0 and 1 |
| GrovePiIO.DigitalValueRawRoundTrip | Sources/GrovePiIO.swift:29-32 | raw value and `init(rawValue:)` are inverse both ways |
| GrovePiIO.DHTModuleType.RawValue | Sources/GrovePiIO.swift:39-42 | blue is 0 and white is 1 |
| PortLabels.PortLabel.Type | Sources/GrovePiPortLabel.swift:22-82 | each label enumeration reports exactly its own port kind |
| PortLabels.AnalogueAndDigitalIds | Sources/GrovePiPortLabel.swift:22-51 | A0/A1/A2 have ids 0/1/2, and D2..D8 have ids 2..8 |
| PortLabels.I2CAndUartIds | Sources/GrovePiPortLabel.swift:54-82 | I2C_1..3 have ids 1..3, and rpiSerial/serial have ids 1/2 |
| PortLabels.IdInjectiveWithinEnumeration | Sources/GrovePiPortLabel.swift:26-80 | within one enumeration, equal ids mean the same label |
| PortLabels.EqualIffSameLabel | Sources/GrovePiPortLabel.swift:93-95 | `EquatablePortLabel ==` (same kind and id) holds iff the labels are the same |
| PortLabels.EqualIsEquivalence | Sources/GrovePiPortLabel.swift:93-95 | `==` is reflexive, symmetric and transitive |
| PortLabels.Equal | Sources/GrovePiPortLabel.swift:93-95 | every label is `==` to itself, and `==` labels hash alike |
| PortLabels.DifferentKindsNeverEqual | Sources/GrovePiPortLabel.swift:93-95 | labels of different kinds are unequal even with the same id (A2 and D2) |
| PortLabels.HashConsistentWithEqual | Sources/GrovePiPortLabel.swift:85-95 | equal labels have equal descriptions, so the description hash agrees with `==` |
| PortLabels.DescriptionIdentifiesLabel | Sources/GrovePiPortLabel.swift:22-82 | no two labels share a description |
| AnyPortLabel.Erase | Sources/AnyGrovePiPortLabel.swift:19-25 | an erased argument hands over its own box; any other label gets a new box around it |
| AnyPortLabel.EraseNeverNests | Sources/AnyGrovePiPortLabel.swift:19-25 | re-erasing never nests boxes, and the result equals the original |
| AnyPortLabel.ForwardsBase | Sources/AnyGrovePiPortLabel.swift:13-17 | type, id, description and hash are the base label's own |
| AnyPortLabel.DifferentConcreteTypesNeverEqual | Sources/AnyGrovePiPortLabel.swift:44-47 | labels of different concrete enumerations are never `==` |
| AnyPortLabel.EqualsIsBaseEquality | Sources/AnyGrovePiPortLabel.swift:27-29 | for one concrete enumeration, `==` is base equality, and overall it is value equality |
| AnyPortLabel.EqualsAgreesWithEquatable | Sources/AnyGrovePiPortLabel.swift:44-49 | erased `==` agrees with the (kind, id) equality, and equal labels hash alike |
| AnyPortLabel.Equals | Sources/AnyGrovePiPortLabel.swift:44-49 | equal erased labels have one kind and one id, and `==` holds exactly when the boxed labels are equal |
| Codecs.BigEndianUInt16 | Sources/UInt16+BigEndian.swift:12-14 | the byte at the offset is the high byte and the next one the low byte; requires offset + 1 < count |
| Codecs.BigEndianBytes | Sources/UInt16+BigEndian.swift:12-14 | the encoder used as partner: exactly two bytes |
| Codecs.BigEndianRoundTrip | Sources/UInt16+BigEndian.swift:13 | decoding [x/256, x%256] gives x, and re-encoding a decoded pair gives the pair |
| Codecs.BigEndianReadsOnlyTwoBytes | Sources/UInt16+BigEndian.swift:12-13 | only the bytes at i and i+1 affect the result |
| Codecs.CompressFromRange1024 | Sources/UInt8+Compress.swift:14-16 | the result is (range * 4) mod 256, always a multiple of 4 |
| Codecs.CompressDependsOnlyOnRangeMod64 | Sources/UInt8+Compress.swift:15 | the result depends only on range mod 64 |
| Codecs.CompressIsNotDivisionByFour | Sources/UInt8+Compress.swift:13-15 | the documented range/4 holds within 0..1023 only at 0, 273, 546 and 819 (4 gives 16, not 1) |
| Codecs.LittleEndianBitPattern | Sources/Utilities/Float+IEEE754.swift:12-14 | the pattern is b[i] + b[i+1]*2^8 + b[i+2]*2^16 + b[i+3]*2^24; requires i+3 < count |
| Codecs.LittleEndianBytes | Sources/Utilities/Float+IEEE754.swift:13 | the splitter used as partner: four bytes, least significant first |
| Codecs.LittleEndianRoundTrip | Sources/Utilities/Float+IEEE754.swift:13 | splitting then assembling is the identity on 32-bit words, and the reverse holds on four bytes |
| Codecs.LittleEndianReadsOnlyFourBytes | Sources/Float+IEEE754.swift:12-13 | only bytes i..i+3 matter, the same in the internal copy |
| Protocols.Settings | Sources/GrovePiInputProtocol.swift:23-41 | analogue reads use command 3 and 2 bytes, digital reads command 1 and 1 byte, no extra parameters, delay 0 |
| Protocols.Convert | Sources/GrovePiInputProtocol.swift:32-45 | analogue responses decode big-endian from the first two bytes; digital responses are low iff byte 0 is 0 |
| Protocols.ResponseLengthFitsConvert | Sources/GrovePiInputProtocol.swift:27-45 | each response length is what `convert` needs and lies in 1..31 |
| Protocols.SignificantIffDifferent | Sources/GrovePiBusScanner.swift:76-86 | a difference of at least 1, or differing raw levels, is significant exactly when the values differ |
| Protocols.IsDifferenceSignificant | Sources/GrovePiBusScanner.swift:76-86 | significant exactly when the values differ |
| Protocols.ConvertRange256 | Sources/GrovePiOutputProtocol.swift:32-38 | an 8-bit value converts to the single byte [v] |
| Protocols.ConvertDigitalOutput | Sources/GrovePiOutputProtocol.swift:40-46 | low converts to [0] and high to [1], and that byte reads back as the same level |
| Transport.Retried | Sources/GrovePiArduinoBus.swift:186-207 | the loop succeeds iff some attempt 0..9 succeeds, and otherwise ends with the last attempt's failure |
| Transport.RetrySleepingBetween | Sources/GrovePiArduinoBus.swift:231-248 | at most 10 attempts, stopping at the first success, sleeping only before attempts after the first; fails iff all fail |
| Transport.RetrySleepingAfterFailure | Sources/ArduinoBus/GrovePiArduinoBus.swift:246-261 | the earlier revisions' loop: the same result, with a sleep after every failed attempt |
| ArduinoBus.AsOutcome | Sources/GrovePiArduinoBus.swift:244-246 | a call passes iff its retry loop succeeded, and otherwise throws `IOError` with the last errno |
| ArduinoBus.WriteCommandOf | Sources/GrovePiOutputProtocol.swift:32-46 | Range256 and digital outputs use an Arduino command; the display and motor protocols use `.other` |
| ArduinoBus.ConvertOutput | Sources/GrovePiOutputProtocol.swift:32-46 | the default conversions give exactly one byte |
| ArduinoBus.WriteFrame | Sources/GrovePiArduinoBus.swift:141-147 | the frame is (command, port, v0, v1), with v0/v1 the first value bytes or 0; further bytes are ignored |
| ArduinoBus.SetIOModeFrame | Sources/GrovePiArduinoBus.swift:150-155 | the write frame of command 5 with the mode as its one value byte, the second padded with 0 |
| ArduinoBus.ReadResponse | Sources/GrovePiArduinoBus.swift:129-135 | exactly returnLength bytes: the status byte for 1, else block[1..returnLength]; requires 1..31 |
| ArduinoBus.ReadCommandResult | Sources/GrovePiArduinoBus.swift:120-139 | a read succeeds iff its write, its byte read and (for more than one byte) its block read succeed, with returnLength bytes |
| ArduinoBus.ReadCommandOps | Sources/GrovePiArduinoBus.swift:124-136 | a read puts on the bus its frame first, then at most a byte read and a block read |
| ArduinoBus.ConvertResult | Sources/ArduinoPortConnection.swift:72-76 | a read's error passes through; a success converts to a value the protocol produces |
| ArduinoBus.PaddedParameters | Sources/ArduinoPortConnection.swift:67-68 | the read parameters are the first two extra bytes, padded with 0 |
| ArduinoBus.DefaultReadParametersAreZero | Sources/GrovePiInputProtocol.swift:27-41 | the default protocols read with parameters (0, 0) |
| ArduinoBus.GrovePiArduinoBus.constructor | Sources/GrovePiArduinoBus.swift:47-51 | an empty dictionary and a new empty scanner |
| ArduinoBus.GrovePiArduinoBus.OpenIO | Sources/GrovePiArduinoBus.swift:163-173 | a failing `open` throws `OpenError` with the file closed; a failing `ioctl` throws `IOError` with it open |
| ArduinoBus.GrovePiArduinoBus.CloseIO | Sources/GrovePiArduinoBus.swift:175-184 | nothing when closed; otherwise closed, and a failing `close` throws `CloseError` |
| ArduinoBus.GrovePiArduinoBus.WriteBlock | Sources/GrovePiArduinoBus.swift:231-248 | one 4-byte frame on the bus, with the retried outcome |
| ArduinoBus.GrovePiArduinoBus.ReadByte | Sources/GrovePiArduinoBus.swift:186-207 | one byte read, giving the retried byte or `IOError` |
| ArduinoBus.GrovePiArduinoBus.ReadBlock | Sources/GrovePiArduinoBus.swift:209-229 | one block read, giving the retried 32 bytes or `IOError` |
| ArduinoBus.GrovePiArduinoBus.ReadCommand | Sources/GrovePiArduinoBus.swift:120-139 | the trace grows by the read's operations, and the result is the read's response or its first error |
| ArduinoBus.GrovePiArduinoBus.WriteCommand | Sources/GrovePiArduinoBus.swift:141-148 | exactly one frame (command, port, v0, v1), with the retried outcome |
| ArduinoBus.GrovePiArduinoBus.SetIOMode | Sources/GrovePiArduinoBus.swift:150-155 | exactly one frame (5, port, mode, 0) |
| ArduinoBus.GrovePiArduinoBus.OtherWriteCommand | Sources/ArduinoPortConnection.swift:140-144 | the calls a protocol with a write sequence of its own made go on the bus unchanged and in order |
| ArduinoBus.GrovePiArduinoBus.ConnectInput | Sources/GrovePiArduinoBus.swift:53-69 | occupied by an equal input source: that source, map unchanged; occupied otherwise: `AlreadyOccupiedPort`; unsupported kind: `UnsupportedPortTypeForUnit`, map unchanged; else the new source is connected before it is inserted |
| ArduinoBus.GrovePiArduinoBus.ConnectOutput | Sources/GrovePiArduinoBus.swift:71-87 | the same three outcomes for output destinations |
| ArduinoBus.GrovePiArduinoBus.DisconnectFrom | Sources/GrovePiArduinoBus.swift:89-93 | the entry is removed before its disconnect runs, which clears its flag, drops an input's delegates and removes the input's first scan item when it had delegates; a missing key changes nothing |
| ArduinoBus.GrovePiArduinoBus.DisconnectPort | Sources/GrovePiArduinoBus.swift:102-103 | an entry's disconnect clears its flag, drops an input's delegates, removes the scan item of an input that had delegates, and may only cancel the scheduler |
| ArduinoBus.GrovePiArduinoBus.DisconnectEntry | Sources/GrovePiArduinoBus.swift:102-105 | one turn of the teardown loop: that entry is disconnected (delegates dropped, its scan item removed) and removed, and the rest are kept |
| ArduinoBus.GrovePiArduinoBus.DisconnectAll | Sources/GrovePiArduinoBus.swift:101-105 | the loop ends with an empty map and every former entry disconnected with its delegates dropped, whatever the errors; the scan list loses the first item of each port that had delegates and nothing else, whatever the visiting order |
| ArduinoBus.GrovePiArduinoBus.DisconnectWatchedEntry | Sources/GrovePiArduinoBus.swift:102-105 | one turn of the teardown loop as the whole loop sees it: the ports with delegates still in the map lose this entry's port, and the scan list is the original one without the first item of each such port disconnected so far |
| ArduinoBus.GrovePiArduinoBus.Teardown | Sources/GrovePiArduinoBus.swift:101-107 | the map is emptied with every input's delegates dropped and the scan list without the first item of each port that had delegates, then the device is closed, and the close outcome is the result |
| ArduinoBus.ArduinoPortConnection.constructor | Sources/ArduinoPortConnection.swift:17-22 | starts not connected, with the bus, label and mode given |
| ArduinoBus.ArduinoPortConnection.Connect | Sources/ArduinoPortConnection.swift:24-30 | without a bus: `DisconnectedBus`; already connected: no-op; otherwise the flag is set before the pin-mode frame, so it stays set when that write fails |
| ArduinoBus.ArduinoPortConnection.Disconnect | Sources/ArduinoPortConnection.swift:32-36 | the bus is checked before the flag; the flag is cleared, and a repeat is a no-op |
| ArduinoBus.ArduinoPortConnection.CheckConnectionIsOK | Sources/ArduinoPortConnection.swift:38-42 | succeeds iff bus and flag hold; `DisconnectedBus` comes before `DisconnectedPort` |
| ArduinoBus.ArduinoPortConnection.BusReleased | Sources/ArduinoPortConnection.swift:12 | the weak reference reads nil once the bus is gone |
| ArduinoBus.SamePort | Sources/ArduinoPortConnection.swift:44-46 | `==` on connections holds exactly when the labels are `==` by kind and id |
| ArduinoBus.ArduinoInputSource.constructor | Sources/ArduinoPortConnection.swift:60-70 | no delegates and no last value; parameters padded to two bytes; the unit's pin mode |
| ArduinoBus.ArduinoInputSource.ReadBytes | Sources/ArduinoPortConnection.swift:115-121 | without a bus: `DisconnectedBus`; otherwise the protocol's read command on this port |
| ArduinoBus.ArduinoInputSource.ReadValue | Sources/ArduinoPortConnection.swift:72-76 | a failed connection check returns its error with no other effect; otherwise the converted read |
| ArduinoBus.ArduinoInputSource.AddValueChangedDelegate | Sources/ArduinoPortConnection.swift:78-84 | after the check, the delegate is appended, and a scan item is added exactly when the count becomes 1 |
| ArduinoBus.ArduinoInputSource.RemoveValueChangedDelegate | Sources/ArduinoPortConnection.swift:86-92 | after the check, equal delegates are removed, and scanner removal is requested whenever the count is then 0 |
| ArduinoBus.ArduinoInputSource.Disconnect | Sources/ArduinoPortConnection.swift:94-100 | the shared disconnect; when delegates existed, all are dropped and the scan item is removed |
| ArduinoBus.ArduinoInputSource.ValueChangedEvaluation | Sources/ArduinoPortConnection.swift:106-113 | delegates are notified and the last value is updated iff there was none or the change is significant, otherwise nothing changes; the bus's map and device state are kept, and its trace grows by exactly the read's calls when the connection check passes and not at all when it fails |
| ArduinoBus.SameInputSource | Sources/ArduinoPortConnection.swift:102-104 | the same port label and an equal input unit, so `==` sources are on the same port |
| ArduinoBus.ArduinoOutputDestination.constructor | Sources/ArduinoPortConnection.swift:129-133 | not connected, with the unit's pin mode |
| ArduinoBus.ArduinoOutputDestination.WriteOps | Sources/ArduinoPortConnection.swift:135-146 | an Arduino-command protocol writes one frame with the converted value; others make their own calls up to and including the first that throws, a prefix of the planned calls |
| ArduinoBus.MotorWriteStopsAtFailedFrame | Sources/DualMotorDrive.swift:116-145 | a motor write passes iff both address selections and both retried frames succeed; a speed frame whose retries all fail ends the write with its `IOError` before the direction calls |
| ArduinoBus.MotorCalls | Sources/GrovePiArduinoBus.swift:231-248 | an address selection keeps its given outcome, and the speed frame's outcome is its retried block write's |
| ArduinoBus.ArduinoOutputDestination.WriteOutcome | Sources/ArduinoPortConnection.swift:135-146 | an Arduino write fails iff its retry loop does; an own write sequence passes iff every call and the display's text check pass, and otherwise fails with the first failing call's error |
| ArduinoBus.ArduinoOutputDestination.WriteValue | Sources/ArduinoPortConnection.swift:135-146 | a failed check changes nothing; otherwise the trace grows by exactly the calls made, and the outcome is the write's |
| ArduinoBus.SameOutputDestination | Sources/ArduinoPortConnection.swift:148-150 | the same port label and an equal output unit, so `==` destinations are on the same port |
| ArduinoBus.Range256WriteFrame | Sources/GrovePiOutputProtocol.swift:32-38 | writing v on port p sends the frame (4, p, v, 0) |
| ArduinoBus.BusSingleton.constructor | Sources/GrovePiArduinoBus.swift:18 | no shared bus at first |
| ArduinoBus.BusSingleton.ConnectBus | Sources/GrovePiArduinoBus.swift:34-39 | the first successful call creates the one bus and later calls return it; a failing open leaves none |
| ArduinoBus.BusSingleton.DisconnectBus | Sources/GrovePiArduinoBus.swift:41-45 | no-op without a bus; otherwise the bus is cleared even when its teardown throws |
| Scanner.StoredInterval | Sources/GrovePiBusScanner.swift:25-28 | the stored interval is max(requested, 1 ms), so it is always positive |
| Scanner.ReduceMin | Sources/GrovePiBusScanner.swift:63 | the `reduce` is the least of the seed and every interval |
| Scanner.NextDue | Sources/GrovePiBusScanner.swift:103-105 | the advanced time is after t and a whole number of intervals later |
| Scanner.NextDueIsWholeIntervals | Sources/GrovePiBusScanner.swift:101-106 | the advance is the least k >= 1 whole intervals that passes t |
| Scanner.ScanItem.constructor | Sources/GrovePiBusScanner.swift:94-99 | an erased label, the given interval, due now |
| Scanner.ScanItem.Evaluate | Sources/GrovePiBusScanner.swift:101-106 | a throwing evaluation leaves the due time; otherwise it moves to the next due time |
| Scanner.Intervals | Sources/GrovePiBusScanner.swift:63 | the items' intervals, one per item |
| Scanner.Nexts | Sources/GrovePiBusScanner.swift:48-50 | the items' due times, one per item |
| Scanner.FirstMatch | Sources/GrovePiBusScanner.swift:38 | the first index whose label is `==` to the target, and none before it |
| Scanner.RemoveFirstTakesOnlyTheMatch | Sources/GrovePiBusScanner.swift:34-42 | `RemoveFirst` leaves the list unchanged when no item matches, and otherwise takes out exactly the first matching item, keeping every other |
| Scanner.WithoutNoLabels | Sources/GrovePiBusScanner.swift:34-42 | removing the first item of each label of an empty set removes nothing |
| Scanner.RemoveFirstExtends | Sources/GrovePiBusScanner.swift:34-42 | removing one more label's first item from a list without the first items of a set of labels gives the list without those of the larger set, so first-match removals commute |
| Scanner.RemoveFirstAtHead | Sources/GrovePiBusScanner.swift:38-39 | a matching head is the item removed |
| Scanner.RemoveFirstPastHead | Sources/GrovePiBusScanner.swift:38-39 | a head with another label is kept and the removal goes on in the rest |
| Scanner.SnapshotStep | Sources/GrovePiBusScanner.swift:48-59 | one more snapshot item extends the due items and failed labels by its own part |
| Scanner.JobStep | Sources/GrovePiBusScanner.swift:48-59 | each job step keeps the list equal to the snapshot minus the labels that failed so far |
| Scanner.PollIsShortestInterval | Sources/GrovePiBusScanner.swift:62-66 | the poll interval never exceeds an item's interval, and is the minimum unless every item is slower than the seed |
| Scanner.PollIntervalCanGrow | Sources/GrovePiBusScanner.swift:62-66 | removing the fastest item lengthens the poll interval |
| Scanner.Scheduler.constructor | Sources/GrovePiBusScanner.swift:119-122 | polls at the given interval and is not cancelled |
| Scanner.Scheduler.Cancel | Sources/GrovePiBusScanner.swift:145-151 | the work item is cancelled, and a second cancel changes nothing |
| Scanner.GrovePiBusScanner.constructor | Sources/GrovePiBusScanner.swift:19-23 | no items and no scheduler |
| Scanner.GrovePiBusScanner.SetupAdaptOrRemoveScheduler | Sources/GrovePiBusScanner.swift:45-72 | creates, adapts or cancels the scheduler so that it exists iff the list is non-empty |
| Scanner.GrovePiBusScanner.AddScanItem | Sources/GrovePiBusScanner.swift:25-33 | appends an item with the floored interval (duplicates allowed), and a scheduler exists afterwards |
| Scanner.GrovePiBusScanner.RemoveScanItem | Sources/GrovePiBusScanner.swift:35-43 | removes only the first equal item; with no match, list and scheduler are unchanged |
| Scanner.GrovePiBusScanner.ScanOne | Sources/GrovePiBusScanner.swift:49-58 | a due item is evaluated, and removed by label when the evaluation throws; an item not due is skipped |
| Scanner.GrovePiBusScanner.JobIteration | Sources/GrovePiBusScanner.swift:49-58 | one loop turn keeps the job invariant |
| Scanner.GrovePiBusScanner.RepeatingJob | Sources/GrovePiBusScanner.swift:47-61 | only items due at t are evaluated, and exactly the failed labels are removed from the snapshot |
| Multicast.Without | Sources/MulticastDelegate.swift:20-28 | the entries not equal to d, in order |
| Multicast.WithoutKeepsOthers | Sources/MulticastDelegate.swift:20-28 | removal takes out every equal entry and keeps every other one |
| Multicast.WithoutAppend | Sources/MulticastDelegate.swift:20-28 | removal distributes over concatenation, so the relative order is kept |
| Multicast.WithoutAbsent | Sources/MulticastDelegate.swift:20-28 | removing an absent delegate leaves the list unchanged |
| Multicast.WithoutCounts | Sources/MulticastDelegate.swift:20-28 | every copy of d goes and the count of every other entry stays |
| Multicast.WithoutFrom | Sources/MulticastDelegate.swift:22-27 | the reverse walk's removal, one index at a time |
| Multicast.RemoveStep | Sources/MulticastDelegate.swift:22-27 | one turn of the reverse walk: entry i is dropped iff it equals d, and the entries before it stay in place |
| Multicast.MulticastDelegate.constructor | Sources/MulticastDelegate.swift:12 | an empty list |
| Multicast.MulticastDelegate.Count | Sources/MulticastDelegate.swift:14 | the number of stored delegates |
| Multicast.MulticastDelegate.AddDelegate | Sources/MulticastDelegate.swift:16-18 | appends at the end, earlier entries unchanged |
| Multicast.MulticastDelegate.RemoveDelegate | Sources/MulticastDelegate.swift:20-28 | the reverse loop leaves exactly the entries not equal to d |
| Multicast.MulticastDelegate.RemoveAllDelegates | Sources/MulticastDelegate.swift:30-32 | the list is empty |
| Multicast.MulticastDelegate.Invoke | Sources/MulticastDelegate.swift:34-38 | each entry receives the parameter once, in insertion order, and the list is unchanged |
| Multicast.AddThenRemoveRestores | Sources/MulticastDelegate.swift:16-28 | adding an absent delegate and removing it restores the list |
| WeakMulticast.Live | Sources/Utilities/MulticastDelegate.swift:33-44 | the live entries, in order |
| WeakMulticast.LiveWithout | Sources/Utilities/MulticastDelegate.swift:18-31 | the live entries not referring to d, in order |
| WeakMulticast.LiveReversed | Sources/Utilities/MulticastDelegate.swift:33-44 | the objects of the live entries, last added first |
| WeakMulticast.LiveStep | Sources/Utilities/MulticastDelegate.swift:35-43 | one step of the walk from the end |
| WeakMulticast.WeakMulticastDelegate.constructor | Sources/Utilities/MulticastDelegate.swift:12 | an empty list |
| WeakMulticast.WeakMulticastDelegate.AddDelegate | Sources/Utilities/MulticastDelegate.swift:14-16 | appends one weak reference to the delegate |
| WeakMulticast.WeakMulticastDelegate.RemoveDelegate | Sources/Utilities/MulticastDelegate.swift:18-31 | the reverse loop removes dead entries and entries identical to d, keeping the rest in order |
| WeakMulticast.WeakMulticastDelegate.Invoke | Sources/Utilities/MulticastDelegate.swift:33-44 | each live entry is called once, last added first; dead entries are removed without a call |
| WeakMulticast.WeakMulticastDelegate.ObjectDeallocated | Sources/Utilities/MulticastDelegate.swift:47-53 | every weak reference to a released object reads as nil |
| WeakMulticast.LiveKeepsExactlyLive | Sources/Utilities/MulticastDelegate.swift:33-44 | pruning keeps every live entry and no dead one |
| WeakMulticast.LiveWithoutKeepsOthers | Sources/Utilities/MulticastDelegate.swift:18-31 | removal takes out the dead entries and d, keeping the other live ones |
| WeakMulticast.LiveIdempotent | Sources/Utilities/MulticastDelegate.swift:33-44 | a second invoke calls the same delegates and prunes nothing |
| WeakMulticast.RemoveAfterAdd | Sources/Utilities/MulticastDelegate.swift:14-31 | a delegate added then removed is neither kept nor called, and the other live entries stay |
| Delegates.InputValueChangedReporter.WithTimestamp | Sources/InputValueChangedDelegate.swift:19-21 | a reporter whose closure takes the timestamp |
| Delegates.InputValueChangedReporter.ValueOnly | Sources/InputValueChangedDelegate.swift:23-27 | a reporter whose stored closure drops the timestamp |
| Delegates.InputValueChangedReporter.NewInputValue | Sources/InputValueChangedDelegate.swift:29-31 | the closure receives the value, and the timestamp when it takes one |
| Delegates.ReporterPassesTimestamp | Sources/InputValueChangedDelegate.swift:23-31 | a timestamp reporter passes both on unchanged; a value-only one reports the same value for any timestamp |
| Delegates.Erase | Sources/AnyInputValueChangedDelegate.swift:14-16 | a new box around the concrete delegate |
| Delegates.Rewrap | Sources/AnyInputValueChangedDelegate.swift:18-20 | the new wrapper shares the existing box and is equal to the original |
| Delegates.DifferentConcreteTypesNeverEqual | Sources/AnyInputValueChangedDelegate.swift:44-49 | wrappers of different concrete delegate types are never `==` |
| Delegates.EqualsIsIdentityOfBase | Sources/AnyInputValueChangedDelegate.swift:26-28 | `==` holds iff same concrete type and equal bases, which for reporters is the same instance |
| Delegates.Equals | Sources/AnyInputValueChangedDelegate.swift:44-49 | equal only for delegates of one concrete kind, and exactly when the boxed delegates are equal |
| Delegates.NewInputValue | Sources/AnyInputValueChangedDelegate.swift:22-24 | forwarded once to the base |
| Delegates.ForwardsValueAndTimestamp | Sources/AnyInputValueChangedDelegate.swift:40-42 | the base receives the value unchanged, and the timestamp unless the closure drops it |
| AnyOutputDestination.AnyGrovePiOutputDestination.PortLabel | Sources/AnyGrovePiOutputDestination.swift:13 | the base's port label |
| AnyOutputDestination.AnyGrovePiOutputDestination.OutputUnit | Sources/AnyGrovePiOutputDestination.swift:14 | the base's output unit |
| AnyOutputDestination.Wrap | Sources/AnyGrovePiOutputDestination.swift:16-18 | a new box around the destination |
| AnyOutputDestination.Rewrap | Sources/AnyGrovePiOutputDestination.swift:20-22 | the new wrapper shares the existing box |
| AnyOutputDestination.DifferentConcreteTypesNeverEqual | Sources/AnyGrovePiOutputDestination.swift:63-66 | wrappers of different concrete destination types are never `==` |
| AnyOutputDestination.EqualsIsBaseEquality | Sources/AnyGrovePiOutputDestination.swift:63-68 | for one concrete type, `==` is an equal label and an equal unit, an equivalence |
| AnyOutputDestination.WrapsOfOneBaseAreEqual | Sources/AnyGrovePiOutputDestination.swift:35-37 | two wrappers of one base are `==` |
| AnyOutputDestination.Equals | Sources/AnyGrovePiOutputDestination.swift:63-68 | equal wrappers have bases of one output protocol, the same port label and the same unit |
| AnyOutputDestination.WriteValue | Sources/AnyGrovePiOutputDestination.swift:24-26 | forwarded once to the base with the same value and call outcomes; the base's calls and error are the wrapper's |
| AnyOutputDestination.Connect | Sources/AnyGrovePiOutputDestination.swift:28-30 | forwarded once to the base's connect |
| AnyOutputDestination.Disconnect | Sources/AnyGrovePiOutputDestination.swift:31-33 | forwarded once to the base's disconnect |
| Display.MakeColor | Sources/RGBLCDDisplayBacklight.swift:18-22 | the given components, each defaulting to 0 |
| Display.ColorOnly | Sources/RGBLCDDisplayBacklight.swift:39-41 | a colour, no text, refresh on |
| Display.TextOnly | Sources/RGBLCDDisplayBacklight.swift:44-46 | a text, no colour |
| Display.ColorAndText | Sources/RGBLCDDisplayBacklight.swift:49-51 | both colour and text |
| Display.ColorOps | Sources/RGBLCDDisplayBacklight.swift:132-140 | select 0x62, then registers (0,0), (1,0), (8,0xAA), (4,r), (3,g), (2,b) in order |
| Display.TextPreamble | Sources/RGBLCDDisplayBacklight.swift:142-148 | select 0x3E, then (0x80, noRefresh ? 2 : 1), (0x80,0x0C), (0x80,0x28) |
| Display.CString | Sources/RGBLCDDisplayBacklight.swift:149-151 | nothing exactly for a text outside ISO Latin 1; else one byte per character, each the character's code, then a terminating zero |
| Display.LayoutStep | Sources/RGBLCDDisplayBacklight.swift:154-168 | one character of the loop: a newline or full row breaks the line or ends the text, otherwise one data write |
| Display.LayoutSize | Sources/RGBLCDDisplayBacklight.swift:152-168 | `Layout` from the first row makes at most one operation per byte and one line break more; on the second row it never breaks the line |
| Display.IsLatin1 | Sources/RGBLCDDisplayBacklight.swift:149-151 | every character fits a byte; otherwise some character is above 255 |
| Display.WriteText | Sources/RGBLCDDisplayBacklight.swift:142-169 | the preamble, then `UnsupportedOutputValue` before any character for non-Latin-1 text, else the layout |
| Display.TextOpsShape | Sources/RGBLCDDisplayBacklight.swift:142-169 | `TextOps` starts with the preamble, is only the preamble for a text outside ISO Latin 1, and adds at most two operations more than the text has characters |
| Display.WriteCharacters | Sources/RGBLCDDisplayBacklight.swift:152-168 | the character loop produces exactly the layout of the C string |
| Display.DisplayOps | Sources/RGBLCDDisplayBacklight.swift:113-120 | colour writes before text writes, each only if present |
| Calls.FirstFailure | Sources/DualMotorDrive.swift:135-145 | the position of the first throwing call, with every call before it passing |
| Calls.Sent | Sources/RGBLCDDisplayBacklight.swift:132-140 | the calls made are a prefix of those planned, ending at the first that throws; all are made iff none before the last throws |
| Calls.SequenceOutcome | Sources/RGBLCDDisplayBacklight.swift:142-169 | a `try` sequence passes iff every call and the final check pass; otherwise the first failing call's error |
| Calls.PerformCalls | Sources/RGBLCDDisplayBacklight.swift:113-120 | the loop makes exactly the calls `Sent` names and ends with `SequenceOutcome` |
| Calls.FailureInFirstPart | Sources/DualMotorDrive.swift:116-123 | a failure in the first of two call sequences ends the whole before the second begins |
| Display.DisplayOutcome | Sources/RGBLCDDisplayBacklight.swift:142-151 | the check a write makes after its calls: only a text outside ISO Latin 1 fails |
| Display.OtherWriteCommand | Sources/RGBLCDDisplayBacklight.swift:113-169 | the display's calls up to and including the first that throws; that call's error, else the text check's outcome; for every text whose calls made write no character of 128 or more |
| Display.ColorFailureSkipsText | Sources/RGBLCDDisplayBacklight.swift:113-140 | a failing colour call ends the write with its error, before any text call |
| Display.NonLatin1TextFailsAfterPreamble | Sources/RGBLCDDisplayBacklight.swift:142-151 | a text outside ISO Latin 1 is refused after the colour calls and the text preamble, and no character is written |
| Display.DataBytesAppend | Sources/RGBLCDDisplayBacklight.swift:154-168 | the characters written distribute over concatenated operations |
| Display.LayoutWritesOnlyCharactersAndBreaks | Sources/RGBLCDDisplayBacklight.swift:155-166 | every operation is a line break or a data write of a non-newline byte |
| Display.LayoutWritesInputInOrder | Sources/RGBLCDDisplayBacklight.swift:154-168 | the data bytes are a prefix of the input's non-newline bytes, in order |
| Display.LastRowFits | Sources/RGBLCDDisplayBacklight.swift:155-167 | on the second row, no line break and at most the remaining columns |
| Display.FirstRowThenLastRow | Sources/RGBLCDDisplayBacklight.swift:155-167 | at most one line break, at most 16 data writes per row, 32 in all |
| Display.ShortLineWrittenWhole | Sources/RGBLCDDisplayBacklight.swift:154-168 | a newline-free text that fits the row is written whole |
| Display.TwoRowsWrittenWhole | Sources/RGBLCDDisplayBacklight.swift:154-168 | a newline-free text of up to 32 bytes is written whole, wrapping after 16 |
| Display.LongTextTruncated | Sources/RGBLCDDisplayBacklight.swift:156-158 | beyond two rows the remaining bytes are dropped |
| Display.LastRowTruncated | Sources/RGBLCDDisplayBacklight.swift:156-158 | a full second row ends the text |
| Display.TerminatingZeroIsWritten | Sources/RGBLCDDisplayBacklight.swift:149-168 | a short text's C-string zero is written as a final data byte |
| Display.UnreachedCharactersNeverConverted | Sources/RGBLCDDisplayBacklight.swift:152-167 | a newline-free Latin 1 text of 32 characters or more whose first 32 are below 128 writes no character of 128 or more, whatever follows (forty `a` then `é`, say), so it never reaches the trapping conversion |
| Display.WritesOnlyFirstTwoRows | Sources/RGBLCDDisplayBacklight.swift:155-167 | for such a text, the layout writes only characters from the first 32 |
| Display.NoNegativeWriteSent | Sources/RGBLCDDisplayBacklight.swift:113-169 | the calls made from a plan with no character write of 128 or more include none either |
| Display.DataWriteInDataBytes | Sources/RGBLCDDisplayBacklight.swift:166 | every character write's byte is among the characters written |
| MotorDrive.GearAndDirection | Sources/DualMotorDrive.swift:24-26 | both gear and direction present |
| MotorDrive.DirectionOnly | Sources/DualMotorDrive.swift:28-30 | direction only |
| MotorDrive.GearOnly | Sources/DualMotorDrive.swift:32-34 | gear only |
| MotorDrive.MotorAB | Sources/DualMotorDrive.swift:46-48 | both motors get the same setting |
| MotorDrive.Gears | Sources/DualMotorDrive.swift:50-52 | each motor its own gear, no direction |
| MotorDrive.GearAB | Sources/DualMotorDrive.swift:54-56 | both motors the same gear, no direction |
| MotorDrive.DirectionAB | Sources/DualMotorDrive.swift:58-60 | both motors the same direction, no gear |
| MotorDrive.Directions | Sources/DualMotorDrive.swift:62-64 | each motor its own direction, no gear |
| MotorDrive.DirectionByte | Sources/DualMotorDrive.swift:141-145 | forward for motor A gives 0x0A and backward gives 0x05 |
| MotorDrive.SpeedOps | Sources/DualMotorDrive.swift:135-139 | select the driver at 0x0F, then one speed frame (0x82) carrying gear A then gear B |
| MotorDrive.DirectionOps | Sources/DualMotorDrive.swift:141-145 | select 0x0F, then one direction frame (0xAA) whose byte is 0x0A for motor A forward and 0x05 backward, whatever motor B's direction |
| MotorDrive.WriteOps | Sources/DualMotorDrive.swift:116-123 | two calls for each complete pair: the speed calls first, the direction calls last |
| MotorDrive.DirectionOfMotorBIgnored | Sources/DualMotorDrive.swift:141-145 | motor B's direction never changes the frame |
| MotorDrive.OtherWriteCommand | Sources/DualMotorDrive.swift:116-145 | the speed calls when both gears are given, then the direction calls when both directions are given, up to the first that throws; that call's error, else success |
| MotorDrive.SpeedFailureSkipsDirection | Sources/DualMotorDrive.swift:116-139 | a failing speed call ends the write with its error, before any direction call |
| MotorDrive.GearInitsSendOnlySpeed | Sources/DualMotorDrive.swift:50-56 | gear-only values select 0x0F and send only (0x82, gearA, gearB, 0) |
| MotorDrive.DirectionInitsSendOnlyDirection | Sources/DualMotorDrive.swift:58-64 | direction-only values send only the direction frame |
| MotorDrive.SpeedBeforeDirection | Sources/DualMotorDrive.swift:116-123 | speed is sent before direction, and a value missing either half of a pair sends nothing for it |
| Bus.GrovePiBus.constructor | Sources/GrovePiBus.swift:32-34 | the bus rests on the shared Arduino bus |
| Bus.GrovePiBus.DisconnectFrom | Sources/GrovePiBus.swift:40-45 | `DisconnectedBus` when no shared bus exists, otherwise the Arduino bus's `disconnect(from:)` |
| Bus.GrovePiBusRegistry.constructor | Sources/GrovePiBus.swift:12 | no bus at first |
| Bus.GrovePiBusRegistry.ConnectBus | Sources/GrovePiBus.swift:19-24 | at most one instance, returned by every later call |
| Bus.GrovePiBusRegistry.DisconnectBus | Sources/GrovePiBus.swift:26-30 | no-op without a bus; otherwise cleared before the Arduino teardown runs, so cleared even if it throws |
| OldScanner.TruncatingRemainder | Sources/Sensors/GrovePiBusScanner.swift:63-66 | the remainder has the dividend's sign and is smaller than the divisor |
| OldScanner.AlignedIsWholeIntervals | Sources/Sensors/GrovePiBusScanner.swift:63-66 | the aligned start is a whole number of intervals and less than one interval from now |
| OldScanner.AlignedInitialTimeInterval | Sources/Sensors/GrovePiBusScanner.swift:63-66 | the aligned start lies less than one interval from now: at or before it for times after the reference date, at or after it before |
| OldScanner.NewScanItem | Sources/Sensors/GrovePiBusScanner.swift:49-54 | the label, the interval as given, and an aligned start at or before now |
| OldScanner.Evaluate | Sources/Sensors/GrovePiBusScanner.swift:56-61 | a throw leaves the item; otherwise the due time advances past now |
| OldScanner.EvaluationMovesPastNow | Sources/Sensors/GrovePiBusScanner.swift:56-61 | after a pass the item is due after now, k >= 1 intervals later |
| OldScanner.FirstMatch | Sources/Sensors/GrovePiBusScanner.swift:25 | the first index whose label is `==` to the target |
| OldScanner.GrovePiBusScanner.constructor | Sources/Sensors/GrovePiBusScanner.swift:14-16 | no items |
| OldScanner.GrovePiBusScanner.AddScanItem | Sources/Sensors/GrovePiBusScanner.swift:18-21 | appends an item with the interval as given |
| OldScanner.GrovePiBusScanner.RemoveScanItem | Sources/Sensors/GrovePiBusScanner.swift:23-28 | removes only the first equal item, or nothing |
| OldScanner.RemovesOnlyFirstOfLabel | Sources/Sensors/GrovePiBusScanner.swift:23-28 | the removed item has the label, and no earlier item does |
| OldScanner.SignificanceOfThisRevision | Sources/Sensors/GrovePiBusScanner.swift:31-41 | the analogue test is symmetric and ignores one-step changes; the digital test is "levels differ" |
| OldScanner.AnalogueSignificantlyDifferent | Sources/Sensors/GrovePiBusScanner.swift:32-34 | significant only for different values, and never for a change of one step |
| OldScanner.DigitalSignificantlyDifferent | Sources/Sensors/GrovePiBusScanner.swift:38-40 | significant exactly when the levels differ |
| OldArduinoBus.OneStepIsNotSignificant | Sources/ArduinoBus/GrovePiArduinoBus.swift:132 | a one-step change is significant for the current revision but not for this one |
| OldArduinoBus.GrovePiArduinoBus.constructor | Sources/ArduinoBus/GrovePiArduinoBus.swift:57-61 | an empty map and a new scanner |
| OldArduinoBus.GrovePiArduinoBus.OpenIO | Sources/ArduinoBus/GrovePiArduinoBus.swift:182-192 | `OpenError` or `IOError` as in the current bus |
| OldArduinoBus.GrovePiArduinoBus.CloseIO | Sources/ArduinoBus/GrovePiArduinoBus.swift:194-203 | nothing when closed; otherwise closed, with `CloseError` on failure |
| OldArduinoBus.GrovePiArduinoBus.WriteBlock | Sources/ArduinoBus/GrovePiArduinoBus.swift:246-261 | one frame, retried with a sleep after each failure |
| OldArduinoBus.GrovePiArduinoBus.ReadByte | Sources/ArduinoBus/GrovePiArduinoBus.swift:205-224 | one byte read, retried the same way |
| OldArduinoBus.GrovePiArduinoBus.ReadBlock | Sources/ArduinoBus/GrovePiArduinoBus.swift:226-244 | one block read, retried the same way |
| OldArduinoBus.GrovePiArduinoBus.ReadCommand | Sources/ArduinoBus/GrovePiArduinoBus.swift:152-168 | the same response as the current bus: the status byte, or block[1..n] |
| OldArduinoBus.GrovePiArduinoBus.SetIOMode | Sources/ArduinoBus/GrovePiArduinoBus.swift:170-174 | the frame (5, port, mode, 0) |
| OldArduinoBus.GrovePiArduinoBus.Connect | Sources/ArduinoBus/GrovePiArduinoBus.swift:63-73 | the inverted guard: a free port throws `AlreadyOccupiedPort`, and only an occupied port with a supported kind is connected |
| OldArduinoBus.ArduinoInputSource.constructor | Sources/ArduinoBus/GrovePiArduinoBus.swift:92-102 | no delegates, parameters padded to two bytes, the protocol's delay |
| OldArduinoBus.ArduinoInputSource.ReadResult | Sources/ArduinoBus/GrovePiArduinoBus.swift:104-107 | `DisconnectedBus` without a bus, otherwise the converted read |
| OldArduinoBus.ArduinoInputSource.ReadBytes | Sources/ArduinoBus/GrovePiArduinoBus.swift:138-145 | `DisconnectedBus` without a bus, otherwise the protocol's read command |
| OldArduinoBus.ArduinoInputSource.ReadValue | Sources/ArduinoBus/GrovePiArduinoBus.swift:104-107 | the converted read, with no connection check |
| OldArduinoBus.ArduinoInputSource.AddValueChangedDelegate | Sources/ArduinoBus/GrovePiArduinoBus.swift:109-117 | silently nothing without a bus; otherwise appended, with a scan item at the first delegate |
| OldArduinoBus.ArduinoInputSource.RemoveValueChangedDelegate | Sources/ArduinoBus/GrovePiArduinoBus.swift:119-127 | silently nothing without a bus; otherwise removed, with scanner removal when none remain |
| OldArduinoBus.ArduinoInputSource.ValueChangedEvaluation | Sources/ArduinoBus/GrovePiArduinoBus.swift:129-136 | notify and update iff there was no value or the change is significant by this revision's test; with a bus, its map and device state are kept and its trace grows by exactly the read's calls |
| OldArduinoBus.ArduinoInputSource.BusReleased | Sources/ArduinoBus/GrovePiArduinoBus.swift:83 | the weak bus reference clears |
| OldArduinoBus.BusSingleton.constructor | Sources/ArduinoBus/GrovePiArduinoBus.swift:34 | no shared bus |
| OldArduinoBus.BusSingleton.ConnectBus | Sources/ArduinoBus/GrovePiArduinoBus.swift:44-49 | at most one bus, created by the first successful call |
| OldArduinoBus.BusSingleton.DisconnectBus | Sources/ArduinoBus/GrovePiArduinoBus.swift:51-55 | no-op without a bus; otherwise the bus is cleared even when `closeIO` throws |
| SupportPorts.SupportPort.Id | Sources/GrovePiSupport.swift:18-36 | the id is the raw value |
| SupportPorts.SupportPort.Type | Sources/GrovePiSupport.swift:18-36 | each port enumeration has its own fixed kind |
| SupportPorts.SameIOIffSamePort | Sources/GroviPiBusAccess.swift:431-433 | `==` on I/O objects (same id and kind) holds iff they are on the same port |
| SupportPorts.SameIO | Sources/GroviPiBusAccess.swift:431-433 | `==` on I/O objects holds exactly when they are on the same port |
| BusAccess.SensorOutputType.RawValue | Sources/GroviPiBusAccess.swift:32-36 | analogue 1, digital 2, two floats 4 |
| BusAccess.OutputTypeFromRaw | Sources/GroviPiBusAccess.swift:32-36 | exactly 1, 2 and 4 name a kind |
| BusAccess.ReportId | Sources/GroviPiBusAccess.swift:42-45 | the low byte of the id is the kind's raw value and the rest is the slot |
| BusAccess.ReportIdRoundTrip | Sources/GroviPiBusAccess.swift:42-49 | `outputType(of:)` recovers the kind, and two ids are equal iff slot and kind are |
| BusAccess.OutputTypeOf | Sources/GroviPiBusAccess.swift:47-49 | a kind exactly for a low byte of 1, 2 or 4, and that kind's raw value is the low byte |
| BusAccess.SensorScan.constructor | Sources/GroviPiBusAccess.swift:18-23 | the source, the change test, and no last value |
| BusAccess.SensorScan.CheckIfDifferentNewValue | Sources/GroviPiBusAccess.swift:25-29 | true iff there was no last value or the change test holds; the new value is always stored |
| BusAccess.SensorScan.SourceReleased | Sources/GroviPiBusAccess.swift:12 | the weak source reference clears |
| BusAccess.SensorScanChangeReportID.constructor | Sources/GroviPiBusAccess.swift:42-45 | the id of the slot and kind |
| BusAccess.SensorScanChangeReportID.SourceReleased | Sources/GroviPiBusAccess.swift:39 | the weak source reference clears |
| BusAccess.ScanOutcome | Sources/GroviPiBusAccess.swift:278-289 | skipped without a source, a throw on a failed read, else changed iff the scan's check says so |
| BusAccess.DoScan | Sources/GroviPiBusAccess.swift:278-289 | the outcome of `doScan`; the scan keeps the value read |
| BusAccess.ScanPass | Sources/GroviPiBusAccess.swift:207-215 | each scan is scanned once; throwing ids become removals and changed scans updates |
| BusAccess.ScanEntry | Sources/GroviPiBusAccess.swift:208-214 | one scanned id: collected for removal iff its scan threw, for update and report iff it changed |
| BusAccess.Merge | Sources/GroviPiBusAccess.swift:216-220 | updates go only to ids still present, then the removals are taken out |
| BusAccess.GrovePiBusAccess.constructor | Sources/GroviPiBusAccess.swift:57-68 | no scans, slot 0, no task |
| BusAccess.GrovePiBusAccess.CountScans | Sources/GroviPiBusAccess.swift:110-114 | zero exactly when all three maps are empty |
| BusAccess.GrovePiBusAccess.CheckScansStatusBeforeAdd | Sources/GroviPiBusAccess.swift:178-182 | starts the scan task iff there are no scans |
| BusAccess.GrovePiBusAccess.CheckScansStatusAfterRemove | Sources/GroviPiBusAccess.swift:184-188 | stops a running task iff no scans remain |
| BusAccess.GrovePiBusAccess.NextReportId | Sources/GroviPiBusAccess.swift:79-81 | the id of the current slot; the slot then moves on |
| BusAccess.GrovePiBusAccess.AddTwoFloatsSensorScan | Sources/GroviPiBusAccess.swift:74-84 | a fresh id not used before; only that key is added, the other maps are unchanged, and the scan task starts when there were no scans |
| BusAccess.GrovePiBusAccess.AddAnalogueSensorScan | Sources/GroviPiBusAccess.swift:86-96 | the same for 16-bit values |
| BusAccess.GrovePiBusAccess.AddDigitalSensorScan | Sources/GroviPiBusAccess.swift:98-108 | the same for digital levels |
| BusAccess.GrovePiBusAccess.RemoveSensorScan | Sources/GroviPiBusAccess.swift:116-135 | no-op unless the id's source exists, is `==` to the port and the id names a kind; then only that key is removed from that kind's map |
| BusAccess.GrovePiBusAccess.RemoveAllSensorScan | Sources/GroviPiBusAccess.swift:137-156 | exactly the scans whose live source is `==` to the port are removed, from all three maps |
| BusAccess.GrovePiBusAccess.DoTwoFloatsScans | Sources/GroviPiBusAccess.swift:197-222 | exactly the scans whose read threw are removed; each kept scan's last value is its new reading when it changed, and a scan is reported iff its reading changed, with that reading |
| BusAccess.GrovePiBusAccess.DoAnalogueScans | Sources/GroviPiBusAccess.swift:224-249 | the same for 16-bit values |
| BusAccess.GrovePiBusAccess.DoDigitalScans | Sources/GroviPiBusAccess.swift:251-276 | the same for digital levels |
| BusAccess.GrovePiBusAccess.DoScans | Sources/GroviPiBusAccess.swift:190-195 | the three passes, each keeping, updating and reporting as its own pass does, then the scan task stops if nothing is left |
| BusAccess.GrovePiBusAccess.ScanAllKinds | Sources/GroviPiBusAccess.swift:191-193 | the three passes one after the other: each kind ends as its own pass leaves it, and a non-empty table was non-empty before |
| BusAccess.GrovePiBusAccess.ScanAnalogueAndDigital | Sources/GroviPiBusAccess.swift:192-193 | the analogue and digital passes, leaving the two-floats scans untouched |
| BusAccess.Matching | Sources/GroviPiBusAccess.swift:142 | an id is selected iff its scan's source exists and is `==` to the port |
| BusAccess.ThrowingScans | Sources/GroviPiBusAccess.swift:207-215 | an id is selected iff its scan has a source and its read throws |
| BusAccess.RemoveKeys | Sources/GroviPiBusAccess.swift:141-143 | the `forEach` removal leaves the map minus the selected ids |
| BusAccess.RemoveMatching | Sources/GroviPiBusAccess.swift:140-144 | a non-empty dictionary loses exactly the ids whose scan has a live source `==` to the port; an empty one stays empty |
| BusAccess.MergeOfOwnCopy | Sources/GroviPiBusAccess.swift:216-220 | merging a pass over the map's own copy leaves the map minus the removals |
| Support.CommandCodes | Sources/GrovePiSupport.swift:251-259 | the codes are 1, 2, 3, 4, 5, 7 and 40, and pairwise distinct |
| Support.CommandFrame | Sources/GrovePiSupport.swift:404 | (command, port, value, 0), with omitted values 0 |
| Support.GrovePiArduinoBus1.constructor | Sources/GrovePiSupport.swift:78-81 | a new empty bus-access object and a retry delay of 1000 µs |
| Support.GrovePiArduinoBus1.OpenIO | Sources/GrovePiSupport.swift:351-361 | `OpenError` or `IOError` as in the other buses |
| Support.GrovePiArduinoBus1.WriteBlock | Sources/GrovePiSupport.swift:404-419 | one frame; throws iff all 10 attempts fail, sleeping after each failure |
| Support.GrovePiArduinoBus1.ReadByte | Sources/GrovePiSupport.swift:363-382 | one byte read, retried the same way |
| Support.GrovePiArduinoBus1.ReadBlock | Sources/GrovePiSupport.swift:384-402 | one block read, retried the same way |
| Support.BusFactory.constructor | Sources/GrovePiSupport.swift:42 | no bus at first |
| Support.BusFactory.GetBus | Sources/GrovePiSupport.swift:47-52 | the first successful call creates and opens the one bus; later calls return it; a failing open leaves none |
| Support.TwoByteReadResult | Sources/GrovePiSupport.swift:271-277 | succeeds iff write, byte read and block read succeed, and the value is block bytes 1 and 2, big-endian |
| Support.TwoByteReadOps | Sources/GrovePiSupport.swift:271-277 | the frame first, and all three operations exactly when the first two succeed |
| Support.DigitalReadResult | Sources/GrovePiSupport.swift:283-287 | succeeds iff write and byte read succeed; low iff the byte is 0 |
| Support.GrovePiArduinoIO.constructor | Sources/GrovePiSupport.swift:96-99 | bound to the bus and the port |
| Support.GrovePiArduinoIO.DirectSetIOMode | Sources/GrovePiSupport.swift:263-265 | the frame (5, port, mode, 0) |
| Support.GrovePiArduinoIO.DirectReadAnalogueValue | Sources/GrovePiSupport.swift:271-277 | frame (3, port, 0, 0), then the two-byte read |
| Support.GrovePiArduinoIO.DirectReadUltrasonicRange | Sources/GrovePiSupport.swift:319-325 | frame (7, port, 0, 0), then the two-byte read |
| Support.GrovePiArduinoIO.ReadTwoBytes | Sources/GrovePiSupport.swift:271-277 | the steps shared by the two reads, stopping at the first failure |
| Support.GrovePiArduinoIO.DirectReadDigitalValue | Sources/GrovePiSupport.swift:283-287 | frame (1, port, 0, 0), then the status byte |
| Support.GrovePiArduinoIO.DirectWriteAnalogueValue | Sources/GrovePiSupport.swift:331-333 | the frame (4, port, value, 0) |
| Support.GrovePiArduinoIO.DirectWriteDigitalValue | Sources/GrovePiSupport.swift:335-337 | the frame (2, port, level, 0) |
| Support.GrovePiArduinoIO.CancelChangeReport | Sources/GrovePiSupport.swift:126-128 | when the guard holds, the id leaves the map of its kind and no other key of any map changes, and the scan task is stopped exactly when that empties all maps while it runs; otherwise no map and no task changes |
| Support.NewArduinoIO | Sources/GrovePiSupport.swift:96-100 | the pin-mode frame is written, and an object exists iff that write succeeded |
| Support.TwoByteReadDecodes | Sources/GrovePiSupport.swift:276 | the value read is v iff block bytes 1..2 are the big-endian bytes of v |

## Left out

- The C transport (`open`, `ioctl`, `close`, the SMBus calls), `usleep`
  and the read delays: calls and their errnos are oracle and errno
  parameters, and sleeps are counted, not timed.
- Concurrency: the bus locks, the scanner's critical section and
  evaluation queue, the scheduler's dispatch loop and semaphore, and in the
  bus-access object the serial and other operation queues,
  `ScanSchedulerOperation`, the condition lock and `Mutex`. Every critical
  section is taken as atomic. The "indirect" calls of the sensor objects,
  which run the direct call on the serial queue and wait, are therefore the
  direct calls.
- Floating point: the temperature/humidity read and its rounding, the
  `Float` construction from the bit pattern (only the 32-bit integer
  pattern is modelled), the two-float change test, and `TimeInterval`
  arithmetic (time is whole microseconds).
- The order in which a Swift dictionary's `forEach` visits keys. The
  bus-access passes and the teardown loop are proved for every order.
- `firmwareVersion` and `readFirmwareVersion`, `deinit`/ARC clean-up other
  than weak references clearing, `printCommands` output, the thin
  convenience wrappers (`RGB_LCD_DisplayDestination`,
  `MotorDriveDestination`, `connectRGB_LCD_Display`,
  `connectDualMotorDrive`), and the sensor and actuator unit declarations,
  which become the `InputUnit`/`OutputUnit` values.
- `GrovePiArduinoBus.otherWriteCommand`, `setAddress`, `writeByte`, the
  declarations of the units and protocols, the earlier revision's protocol
  declarations, and the raw values of the sensor-object port enumerations
  are not part of this model. The model takes `otherWriteCommand` as
  making the protocol's calls, and the port raw values as bytes. Whether
  each `setAddress` or `writeByte` call throws is the `calls` parameter;
  a motor frame's `writeBlock` is the retried write with its own oracle.
- Display.OtherWriteCommand: the ISO Latin 1 check is made after the text
  preamble's calls, as in the code, but is computed with the planned calls;
  only the order of computation differs, not the calls made or the error.
- Scanner.GrovePiBusScanner.RepeatingJob: the snapshot is walked in list
  order, while the code first sorts it by sampling interval
  (Sources/GrovePiBusScanner.swift:48). The same items are due, and the
  same labels are removed, each by its first match; only the order of the
  evaluations and of the removals differs, and `evaluated` lists the due
  items in list order rather than by interval.
- Display.OtherWriteCommand: requires that no character write among the
  calls made carries a character of 128 or more, because `UInt8(charByte)`
  traps on a negative C character. A character the loop never reaches, or
  one after a failing call, is allowed. ArduinoBus.ArduinoOutputDestination.WriteValue
  and AnyOutputDestination.WriteValue require the same of a text value when
  the connection check passes.
- ArduinoBus.GrovePiArduinoBus.ReadCommand: requires a response length of
  1..31, because a length of 0 or 32 and more traps in the copy loop.
- OldArduinoBus.GrovePiArduinoBus.ReadCommand: requires a response length
  of 1..31, because a length of 0 or 32 and more traps in the slice of the
  response bytes (Sources/ArduinoBus/GrovePiArduinoBus.swift:167).
- OldScanner.GrovePiBusScanner.AddScanItem: requires a non-zero interval,
  because the aligned start is not a number for a zero interval.
- OldScanner.Evaluate: requires a positive interval, because otherwise the
  repeat loop never ends.
- OldArduinoBus.ArduinoInputSource.ValueChangedEvaluation: requires read
  values up to 32767, where `Int16(_:)` does not trap.
- OldArduinoBus.ArduinoInputSource.constructor: the earlier revision's
  delay is the default of Sources/ArduinoBus/GrovePiArduinoBus.swift:28,
  and its `AnalogueValue10` is taken as a 16-bit value.
- OldArduinoBus.GrovePiArduinoBus.WriteBlock: the earlier revision's
  `retryCount` is not declared in its file and is taken as 9, like the
  other revisions.
- OldArduinoBus.ArduinoInputSource.AddValueChangedDelegate: the earlier
  revision's multicast list is taken to be the strong list.
- The sensor objects' `onChange` wiring, and the four `areDifferent`
  closures, are left out. The integer closures trap in `Int16(_:)` above
  32767, which a total closure cannot express. Their test on values that
  fit is the earlier scanner's test, stated by
  OldScanner.SignificanceOfThisRevision.
- `AUltrasonicRangeSensor.readCentimeters` reads with the analogue command
  3, not the ultrasonic command. Only the direct reads it delegates to are
  modelled.
- BusAccess.ReportId: `slot << 8` overflows `Int` for slots of 2^55 and
  more; slots are unbounded here.
- BusAccess.GrovePiBusAccess.DoScans: the `readInput` and `reportChange`
  closures are the `readings` parameter and the reported map. The
  two-float values are a `(real, real)` carrier only.
- BusAccess.GrovePiBusAccess.RemoveAllSensorScan: scans whose I/O object
  was released are never removed, as in the code; the contracts show it.
