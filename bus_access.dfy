/** `GrovePiBusAccess` (Sources/GroviPiBusAccess.swift) of the
    sensor-object revision: three dictionaries of sensor scans, one per kind
    of value, keyed by report ids made of a running slot number and the kind;
    a background scan task that runs exactly while there is a scan; and scan
    passes that read every sensor, report changes, and drop the scans whose
    read threw.

    The read closure of a scan is the `readings` parameter of a pass (what
    reading the scan with that id yields), and the report closure is the
    `reported` result (the value reported per id). Each critical section is
    taken as atomic, so a pass runs with nothing else in between. */
module BusAccess {
  import opened Common
  import opened GrovePiIO
  import opened SupportPorts

  /** The kind of value a scan delivers, with its raw value. */
  datatype SensorOutputType = AnalogueValue | DigitalOutputValue | TwoFloatValues {
    function RawValue(): (r: byte)
      ensures r == 1 <==> this.AnalogueValue?
      ensures r == 2 <==> this.DigitalOutputValue?
      ensures r == 4 <==> this.TwoFloatValues?
    {
      match this
      case AnalogueValue => 1
      case DigitalOutputValue => 2
      case TwoFloatValues => 4
    }
  }

  /** `SensorOutputType(rawValue:)`. */
  function OutputTypeFromRaw(raw: byte): (t: Option<SensorOutputType>)
    ensures t.Some? <==> raw == 1 || raw == 2 || raw == 4
    ensures t.Some? ==> t.value.RawValue() == raw
  {
    if raw == 1 then Some(AnalogueValue)
    else if raw == 2 then Some(DigitalOutputValue)
    else if raw == 4 then Some(TwoFloatValues)
    else None
  }

  /** The report id of a slot and a kind: `slot << 8 | type.rawValue`. */
  function ReportId(slot: nat, t: SensorOutputType): (id: nat)
    ensures id % 256 == t.RawValue() as int && id / 256 == slot
  {
    slot * 256 + t.RawValue() as int
  }

  /** `outputType(of:)`: the kind named by the id's low byte. */
  function OutputTypeOf(id: int): (t: Option<SensorOutputType>)
    ensures t.Some? <==> id % 256 == 1 || id % 256 == 2 || id % 256 == 4
    ensures t.Some? ==> t.value.RawValue() as int == id % 256
  {
    OutputTypeFromRaw((id % 256) as byte)
  }

  /** `outputType(of:)` recovers the kind of every id made by `ReportId`,
      and two ids are equal exactly when both slot and kind are. */
  lemma ReportIdRoundTrip(slot1: nat, t1: SensorOutputType, slot2: nat, t2: SensorOutputType)
    ensures OutputTypeOf(ReportId(slot1, t1)) == Some(t1)
    ensures ReportId(slot1, t1) == ReportId(slot2, t2) <==> slot1 == slot2 && t1 == t2
  {
    var a, b := ReportId(slot1, t1), ReportId(slot2, t2);
    if a == b {
      assert t1.RawValue() == t2.RawValue();
    }
  }

  /** A scan: a weak reference to the I/O object it belongs to (`None`
      once that object is released), its change test, and the value it read
      last. */
  class SensorScan<DT> {
    var source: Option<SupportPort>
    const ifChanged: (DT, DT) -> bool
    var lastValue: Option<DT>

    constructor(source: SupportPort, ifChanged: (DT, DT) -> bool)
      ensures this.source == Some(source) && this.ifChanged == ifChanged && lastValue.None?
    {
      this.source := Some(source);
      this.ifChanged := ifChanged;
      lastValue := None;
    }

    /** `checkIfDifferentNewValue`: store the new value, and say whether
        there was no earlier value or the change test holds. */
    method CheckIfDifferentNewValue(newValue: DT) returns (changed: bool)
      modifies this
      ensures lastValue == Some(newValue) && source == old(source)
      ensures changed <==> old(lastValue).None? || ifChanged(newValue, old(lastValue).value)
    {
      var oldValue := lastValue;
      lastValue := Some(newValue);
      changed := oldValue.None? || ifChanged(newValue, oldValue.value);
    }

    /** The I/O object is released: the weak reference clears. */
    method SourceReleased()
      modifies this
      ensures source.None? && lastValue == old(lastValue)
    {
      source := None;
    }
  }

  /** `SensorScanChangeReportID`: the id handed out by an add, with its own
      weak reference to the I/O object. */
  class SensorScanChangeReportID {
    var source: Option<SupportPort>
    const id: int

    constructor(source: SupportPort, slot: nat, t: SensorOutputType)
      ensures this.source == Some(source) && id == ReportId(slot, t)
    {
      this.source := Some(source);
      id := ReportId(slot, t);
    }

    method SourceReleased()
      modifies this
      ensures source.None?
    {
      source := None;
    }
  }

  /** The scans of one dictionary are distinct objects: each add makes a
      new one. */
  predicate Distinct<DT>(m: map<int, SensorScan<DT>>) {
    forall k, j :: k in m && j in m && k != j ==> m[k] != m[j]
  }

  /** Every key was issued by an add of this kind before slot `nextSlot`. */
  predicate IssuedKeys<DT>(m: map<int, SensorScan<DT>>, t: SensorOutputType, nextSlot: nat) {
    forall k :: k in m ==> IssuedId(k, t, nextSlot)
  }

  /** The id was made by `ReportId` for this kind and a slot before
      `nextSlot`. */
  predicate IssuedId(id: int, t: SensorOutputType, nextSlot: nat) {
    0 <= id && id % 256 == t.RawValue() as int && id / 256 < nextSlot
  }

  /** What `doScan` decides for one scan: nothing for a released source;
      a throw for a failed read; otherwise a report when the change test
      says so. */
  datatype ScanStep<DT> = Skipped | Threw(error: GrovePiError) | Quiet | Changed(value: DT)

  function ScanOutcome<DT>(source: Option<SupportPort>, lastValue: Option<DT>, ifChanged: (DT, DT) -> bool,
                           reading: Result<DT>): (s: ScanStep<DT>)
    ensures s.Skipped? <==> source.None?
    ensures s.Threw? <==> source.Some? && reading.Err?
    ensures s.Changed? ==> reading.Ok? && s.value == reading.value
  {
    if source.None? then Skipped
    else if reading.Err? then Threw(reading.error)
    else if lastValue.None? || ifChanged(reading.value, lastValue.value) then Changed(reading.value)
    else Quiet
  }

  /** The value a scan keeps after a pass: the value read, whenever its
      source was there and the read succeeded. */
  function LastValueAfter<DT>(source: Option<SupportPort>, lastValue: Option<DT>, reading: Result<DT>): Option<DT> {
    if source.Some? && reading.Ok? then Some(reading.value) else lastValue
  }

  /** `doScan`: nothing for a released source; a failed read throws and
      leaves the scan as it was; otherwise the value is checked (and
      stored), and the scan is returned when the change is to be
      reported. */
  method DoScan<DT>(sensorScan: SensorScan<DT>, reading: Result<DT>) returns (r: Result<Option<SensorScan<DT>>>)
    modifies sensorScan
    ensures sensorScan.source == old(sensorScan.source)
    ensures sensorScan.lastValue == LastValueAfter(old(sensorScan.source), old(sensorScan.lastValue), reading)
    ensures var s := ScanOutcome(old(sensorScan.source), old(sensorScan.lastValue), sensorScan.ifChanged, reading);
      (s.Threw? ==> r == Err(s.error))
      && (s.Changed? ==> r == Ok(Some(sensorScan)))
      && (s.Skipped? || s.Quiet? ==> r == Ok(None))
  {
    if sensorScan.source.None? {
      return Ok(None);
    }
    if reading.Err? {
      return Err(reading.error);
    }
    var newValue := reading.value;
    var changed := sensorScan.CheckIfDifferentNewValue(newValue);
    if changed {
      return Ok(Some(sensorScan));
    }
    r := Ok(None);
  }

  /** The scan loop of one pass over a copy of a dictionary: each scan is
      scanned once; a throwing scan's id is collected for removal, a
      changed scan's id for update and its value is reported. */
  method ScanPass<DT>(copy: map<int, SensorScan<DT>>, readings: int -> Result<DT>)
    returns (updates: map<int, SensorScan<DT>>, removals: set<int>, reported: map<int, DT>)
    requires Distinct(copy)
    modifies copy.Values
    ensures forall k :: k in copy ==> copy[k].source == old(copy[k].source)
    ensures forall k :: k in copy ==>
      copy[k].lastValue == LastValueAfter(old(copy[k].source), old(copy[k].lastValue), readings(k))
    ensures forall k :: k in removals <==>
      k in copy && ScanOutcome(old(copy[k].source), old(copy[k].lastValue), copy[k].ifChanged, readings(k)).Threw?
    ensures forall k :: k in updates <==>
      k in copy && ScanOutcome(old(copy[k].source), old(copy[k].lastValue), copy[k].ifChanged, readings(k)).Changed?
    ensures forall k :: k in updates ==> updates[k] == copy[k]
    ensures reported.Keys == updates.Keys
    ensures forall k :: k in reported ==> readings(k).Ok? && reported[k] == readings(k).value
  {
    updates, removals, reported := map[], {}, map[];
    // Each scan's source and last value when the pass starts.
    ghost var before := map k | k in copy :: (copy[k].source, copy[k].lastValue);
    var remaining := copy.Keys;
    while remaining != {}
      invariant remaining <= copy.Keys
      invariant forall k :: k in copy ==>
        (copy[k].source == before[k].0
         && copy[k].lastValue == if k in remaining then before[k].1 else LastValueAfter(before[k].0, before[k].1, readings(k)))
      invariant Collected(copy, before, readings, remaining, updates, removals, reported)
      decreases |remaining|
    {
      NonEmptyHasMember(remaining);
      var key :| key in remaining;
      var value := copy[key];
      var updates', removals', reported' := ScanEntry(key, value, readings(key), updates, removals, reported);
      CollectStep(copy, before, readings, remaining, key, updates, removals, reported, updates', removals', reported');
      updates, removals, reported := updates', removals', reported';
      remaining := remaining - {key};
      forall k | k in copy
        ensures copy[k].source == before[k].0
        ensures copy[k].lastValue
          == if k in remaining then before[k].1 else LastValueAfter(before[k].0, before[k].1, readings(k))
      {
        if k != key {
          assert copy[k] != value;
        }
      }
    }
  }

  /** What a pass has collected once the ids outside `remaining` are
      scanned: the ids whose scan threw, the ids (and scans) whose scan
      changed, and the values those reported. */
  ghost predicate Collected<DT>(copy: map<int, SensorScan<DT>>, before: map<int, (Option<SupportPort>, Option<DT>)>,
                                readings: int -> Result<DT>, remaining: set<int>,
                                updates: map<int, SensorScan<DT>>, removals: set<int>, reported: map<int, DT>)
  {
    before.Keys == copy.Keys
    && (forall k :: k in removals <==>
          k in copy && k !in remaining && ScanOutcome(before[k].0, before[k].1, copy[k].ifChanged, readings(k)).Threw?)
    && (forall k :: k in updates <==>
          k in copy && k !in remaining && ScanOutcome(before[k].0, before[k].1, copy[k].ifChanged, readings(k)).Changed?)
    && (forall k :: k in updates ==> updates[k] == copy[k])
    && reported.Keys == updates.Keys
    && (forall k :: k in reported ==> readings(k).Ok? && reported[k] == readings(k).value)
  }

  /** Scanning `key` extends what was collected by that id's own part. */
  lemma CollectStep<DT>(copy: map<int, SensorScan<DT>>, before: map<int, (Option<SupportPort>, Option<DT>)>,
                        readings: int -> Result<DT>, remaining: set<int>, key: int,
                        updates: map<int, SensorScan<DT>>, removals: set<int>, reported: map<int, DT>,
                        updates': map<int, SensorScan<DT>>, removals': set<int>, reported': map<int, DT>)
    requires Collected(copy, before, readings, remaining, updates, removals, reported)
    requires key in remaining && key in copy
    requires var s := ScanOutcome(before[key].0, before[key].1, copy[key].ifChanged, readings(key));
      removals' == (if s.Threw? then removals + {key} else removals)
      && updates' == (if s.Changed? then updates[key := copy[key]] else updates)
      && reported' == (if s.Changed? then reported[key := readings(key).value] else reported)
    ensures Collected(copy, before, readings, remaining - {key}, updates', removals', reported')
  {
  }

  /** One turn of the scan loop: `doScan` on one scan, whose id is then
      collected for removal when it threw, or for update (with its value
      reported) when it changed. */
  method ScanEntry<DT>(key: int, scan: SensorScan<DT>, reading: Result<DT>,
                       updates: map<int, SensorScan<DT>>, removals: set<int>, reported: map<int, DT>)
    returns (updates': map<int, SensorScan<DT>>, removals': set<int>, reported': map<int, DT>)
    modifies scan
    ensures scan.source == old(scan.source)
    ensures scan.lastValue == LastValueAfter(old(scan.source), old(scan.lastValue), reading)
    ensures var s := ScanOutcome(old(scan.source), old(scan.lastValue), scan.ifChanged, reading);
      removals' == (if s.Threw? then removals + {key} else removals)
      && updates' == (if s.Changed? then updates[key := scan] else updates)
      && reported' == (if s.Changed? then reported[key := reading.value] else reported)
  {
    updates', removals', reported' := updates, removals, reported;
    var scanned := DoScan(scan, reading);
    if scanned.Err? {
      removals' := removals + {key};
    } else if scanned.value.Some? {
      updates' := updates[key := scanned.value.value];
      reported' := reported[key := reading.value];
    }
  }

  /** The merge at the end of a pass: updates go only to ids still present,
      then the removals are taken out. */
  function Merge<DT>(current: map<int, SensorScan<DT>>, updates: map<int, SensorScan<DT>>, removals: set<int>)
    : (merged: map<int, SensorScan<DT>>)
    ensures merged.Keys == current.Keys - removals
    ensures forall k :: k in merged ==> merged[k] == if k in updates then updates[k] else current[k]
  {
    map k | k in current && k !in removals :: if k in updates then updates[k] else current[k]
  }

  /** Whether the scans task is being started or stopped. */
  datatype TaskEvent = StartScans | StopScans

  class GrovePiBusAccess {
    var nextSlot: nat
    var twoFloatsSensorScans: map<int, SensorScan<(real, real)>>
    var analogueSensorScans: map<int, SensorScan<uint16>>
    var digitalSensorScans: map<int, SensorScan<DigitalValue>>
    /** Whether the scheduler operation exists, and the starts and stops
        of it so far. */
    var scanTaskRunning: bool
    var taskLog: seq<TaskEvent>

    /** Keys are issued ids of the dictionary's own kind, scans are
        distinct objects, and the scan task runs exactly while there is a
        scan. */
    predicate Valid()
      reads this
    {
      IssuedKeys(twoFloatsSensorScans, TwoFloatValues, nextSlot) && Distinct(twoFloatsSensorScans)
      && IssuedKeys(analogueSensorScans, AnalogueValue, nextSlot) && Distinct(analogueSensorScans)
      && IssuedKeys(digitalSensorScans, DigitalOutputValue, nextSlot) && Distinct(digitalSensorScans)
      && (scanTaskRunning <==> !Empty())
    }

    /** No scan of any kind. */
    predicate Empty()
      reads this
    {
      twoFloatsSensorScans == map[] && analogueSensorScans == map[] && digitalSensorScans == map[]
    }

    constructor()
      ensures Valid() && nextSlot == 0 && CountScans() == 0 && taskLog == []
    {
      nextSlot := 0;
      twoFloatsSensorScans := map[];
      analogueSensorScans := map[];
      digitalSensorScans := map[];
      scanTaskRunning := false;
      taskLog := [];
    }

    /** `countScans`: the number of scans of all three kinds. */
    function CountScans(): (n: nat)
      reads this
      ensures n == 0 <==> Empty()
    {
      |twoFloatsSensorScans| + |analogueSensorScans| + |digitalSensorScans|
    }

    /** `checkScansStatusBeforeAdd`: start the scan task when there is no scan. */
    method CheckScansStatusBeforeAdd()
      modifies this
      ensures nextSlot == old(nextSlot)
      ensures twoFloatsSensorScans == old(twoFloatsSensorScans) && analogueSensorScans == old(analogueSensorScans)
      ensures digitalSensorScans == old(digitalSensorScans)
      ensures old(Empty()) ==> scanTaskRunning && taskLog == old(taskLog) + [StartScans]
      ensures !old(Empty()) ==> scanTaskRunning == old(scanTaskRunning) && taskLog == old(taskLog)
    {
      if Empty() {
        scanTaskRunning := true;
        taskLog := taskLog + [StartScans];
      }
    }

    /** `checkScansStatusAfterRemove`: stop the scan task, if it exists, when
        there is no scan left. */
    method CheckScansStatusAfterRemove()
      modifies this
      ensures nextSlot == old(nextSlot)
      ensures twoFloatsSensorScans == old(twoFloatsSensorScans) && analogueSensorScans == old(analogueSensorScans)
      ensures digitalSensorScans == old(digitalSensorScans)
      ensures Empty() ==>
        !scanTaskRunning && taskLog == old(taskLog) + (if old(scanTaskRunning) then [StopScans] else [])
      ensures !Empty() ==> scanTaskRunning == old(scanTaskRunning) && taskLog == old(taskLog)
    {
      if Empty() && scanTaskRunning {
        scanTaskRunning := false;
        taskLog := taskLog + [StopScans];
      }
    }

    /** The two lines shared by the adds: the scan task check, then the id of the
        current slot, after which the slot moves on. */
    method NextReportId(port: SupportPort, t: SensorOutputType) returns (reportID: SensorScanChangeReportID)
      requires Valid()
      modifies this
      ensures fresh(reportID) && reportID.source == Some(port) && reportID.id == ReportId(old(nextSlot), t)
      ensures nextSlot == old(nextSlot) + 1 && scanTaskRunning
      ensures twoFloatsSensorScans == old(twoFloatsSensorScans) && analogueSensorScans == old(analogueSensorScans)
      ensures digitalSensorScans == old(digitalSensorScans)
      ensures taskLog == old(taskLog) + if old(Empty()) then [StartScans] else []
      ensures IssuedKeys(twoFloatsSensorScans, TwoFloatValues, nextSlot)
      ensures IssuedKeys(analogueSensorScans, AnalogueValue, nextSlot)
      ensures IssuedKeys(digitalSensorScans, DigitalOutputValue, nextSlot)
      ensures reportID.id !in twoFloatsSensorScans && reportID.id !in analogueSensorScans
      ensures reportID.id !in digitalSensorScans
    {
      CheckScansStatusBeforeAdd();
      reportID := new SensorScanChangeReportID(port, nextSlot, t);
      nextSlot := nextSlot + 1;
    }

    /** `addTwoFloatsSensorScan`: a new scan under a new id; the ids already
        handed out, and every other scan, stay as they are. */
    method AddTwoFloatsSensorScan(port: SupportPort, ifChanged: ((real, real), (real, real)) -> bool)
      returns (reportID: SensorScanChangeReportID)
      requires Valid()
      modifies this
      ensures Valid()
      ensures fresh(reportID) && reportID.source == Some(port) && reportID.id == ReportId(old(nextSlot), TwoFloatValues)
      ensures nextSlot == old(nextSlot) + 1 && reportID.id !in old(twoFloatsSensorScans)
      ensures twoFloatsSensorScans.Keys == old(twoFloatsSensorScans).Keys + {reportID.id}
      ensures forall k :: k in old(twoFloatsSensorScans) ==> twoFloatsSensorScans[k] == old(twoFloatsSensorScans)[k]
      ensures fresh(twoFloatsSensorScans[reportID.id])
      ensures twoFloatsSensorScans[reportID.id].source == Some(port)
      ensures twoFloatsSensorScans[reportID.id].ifChanged == ifChanged && twoFloatsSensorScans[reportID.id].lastValue.None?
      ensures analogueSensorScans == old(analogueSensorScans) && digitalSensorScans == old(digitalSensorScans)
      ensures taskLog == old(taskLog) + if old(Empty()) then [StartScans] else []
    {
      reportID := NextReportId(port, TwoFloatValues);
      var scan := new SensorScan(port, ifChanged);
      twoFloatsSensorScans := twoFloatsSensorScans[reportID.id := scan];
    }

    /** `addAnalogueSensorScan`, the same for 16-bit values. */
    method AddAnalogueSensorScan(port: SupportPort, ifChanged: (uint16, uint16) -> bool)
      returns (reportID: SensorScanChangeReportID)
      requires Valid()
      modifies this
      ensures Valid()
      ensures fresh(reportID) && reportID.source == Some(port) && reportID.id == ReportId(old(nextSlot), AnalogueValue)
      ensures nextSlot == old(nextSlot) + 1 && reportID.id !in old(analogueSensorScans)
      ensures analogueSensorScans.Keys == old(analogueSensorScans).Keys + {reportID.id}
      ensures forall k :: k in old(analogueSensorScans) ==> analogueSensorScans[k] == old(analogueSensorScans)[k]
      ensures fresh(analogueSensorScans[reportID.id])
      ensures analogueSensorScans[reportID.id].source == Some(port)
      ensures analogueSensorScans[reportID.id].ifChanged == ifChanged && analogueSensorScans[reportID.id].lastValue.None?
      ensures twoFloatsSensorScans == old(twoFloatsSensorScans) && digitalSensorScans == old(digitalSensorScans)
      ensures taskLog == old(taskLog) + if old(Empty()) then [StartScans] else []
    {
      reportID := NextReportId(port, AnalogueValue);
      var scan := new SensorScan(port, ifChanged);
      analogueSensorScans := analogueSensorScans[reportID.id := scan];
    }

    /** `addDigitalSensorScan`, the same for digital levels. */
    method AddDigitalSensorScan(port: SupportPort, ifChanged: (DigitalValue, DigitalValue) -> bool)
      returns (reportID: SensorScanChangeReportID)
      requires Valid()
      modifies this
      ensures Valid()
      ensures fresh(reportID) && reportID.source == Some(port) && reportID.id == ReportId(old(nextSlot), DigitalOutputValue)
      ensures nextSlot == old(nextSlot) + 1 && reportID.id !in old(digitalSensorScans)
      ensures digitalSensorScans.Keys == old(digitalSensorScans).Keys + {reportID.id}
      ensures forall k :: k in old(digitalSensorScans) ==> digitalSensorScans[k] == old(digitalSensorScans)[k]
      ensures fresh(digitalSensorScans[reportID.id])
      ensures digitalSensorScans[reportID.id].source == Some(port)
      ensures digitalSensorScans[reportID.id].ifChanged == ifChanged && digitalSensorScans[reportID.id].lastValue.None?
      ensures twoFloatsSensorScans == old(twoFloatsSensorScans) && analogueSensorScans == old(analogueSensorScans)
      ensures taskLog == old(taskLog) + if old(Empty()) then [StartScans] else []
    {
      reportID := NextReportId(port, DigitalOutputValue);
      var scan := new SensorScan(port, ifChanged);
      digitalSensorScans := digitalSensorScans[reportID.id := scan];
    }

    /** The guard of `removeSensorScan`: the id's I/O object still exists,
        is `==` to the port, and the id names a kind. */
    predicate RemovalApplies(changeReportID: SensorScanChangeReportID, port: SupportPort)
      reads changeReportID
    {
      changeReportID.source.Some? && SameIO(changeReportID.source.value, port)
      && OutputTypeOf(changeReportID.id).Some?
    }

    /** `removeSensorScan`: nothing at all unless the guard holds; then
        only that id is removed, from the dictionary of its kind, and the
        task stops when no scan is left. */
    method RemoveSensorScan(changeReportID: SensorScanChangeReportID, port: SupportPort)
      requires Valid()
      modifies this
      ensures Valid() && nextSlot == old(nextSlot)
      ensures !RemovalApplies(changeReportID, port) ==>
        twoFloatsSensorScans == old(twoFloatsSensorScans) && analogueSensorScans == old(analogueSensorScans)
        && digitalSensorScans == old(digitalSensorScans) && taskLog == old(taskLog)
      ensures RemovalApplies(changeReportID, port) ==>
        var t := OutputTypeOf(changeReportID.id).value;
        twoFloatsSensorScans == old(twoFloatsSensorScans) - (if t == TwoFloatValues then {changeReportID.id} else {})
        && analogueSensorScans == old(analogueSensorScans) - (if t == AnalogueValue then {changeReportID.id} else {})
        && digitalSensorScans == old(digitalSensorScans) - (if t == DigitalOutputValue then {changeReportID.id} else {})
        && taskLog == old(taskLog) + (if Empty() && old(scanTaskRunning) then [StopScans] else [])
    {
      if !RemovalApplies(changeReportID, port) {
        return;
      }
      var outputType := OutputTypeOf(changeReportID.id).value;
      match outputType {
        case TwoFloatValues =>
          RemovalKeepsKeys(twoFloatsSensorScans, {changeReportID.id}, TwoFloatValues, nextSlot);
          twoFloatsSensorScans := twoFloatsSensorScans - {changeReportID.id};
        case AnalogueValue =>
          RemovalKeepsKeys(analogueSensorScans, {changeReportID.id}, AnalogueValue, nextSlot);
          analogueSensorScans := analogueSensorScans - {changeReportID.id};
        case DigitalOutputValue =>
          RemovalKeepsKeys(digitalSensorScans, {changeReportID.id}, DigitalOutputValue, nextSlot);
          digitalSensorScans := digitalSensorScans - {changeReportID.id};
      }
      CheckScansStatusAfterRemove();
    }

    /** `removeAllSensorScan`: every scan whose I/O object still exists and
        is `==` to the port is removed, from all three dictionaries; a scan
        whose I/O object was released stays. */
    method RemoveAllSensorScan(port: SupportPort)
      requires Valid()
      modifies this
      ensures Valid() && nextSlot == old(nextSlot)
      ensures twoFloatsSensorScans == old(twoFloatsSensorScans) - old(Matching(twoFloatsSensorScans, port))
      ensures analogueSensorScans == old(analogueSensorScans) - old(Matching(analogueSensorScans, port))
      ensures digitalSensorScans == old(digitalSensorScans) - old(Matching(digitalSensorScans, port))
      ensures taskLog == old(taskLog) + (if Empty() && old(scanTaskRunning) then [StopScans] else [])
    {
      var twoFloatsKept := RemoveMatching(twoFloatsSensorScans, port, TwoFloatValues, nextSlot);
      var analogueKept := RemoveMatching(analogueSensorScans, port, AnalogueValue, nextSlot);
      var digitalKept := RemoveMatching(digitalSensorScans, port, DigitalOutputValue, nextSlot);
      twoFloatsSensorScans, analogueSensorScans, digitalSensorScans := twoFloatsKept, analogueKept, digitalKept;
      CheckScansStatusAfterRemove();
    }

    /** `doTwoFloatsScans`: copy, scan, merge. The copy is the dictionary
        itself, so the merge only takes out the scans whose read threw. */
    method DoTwoFloatsScans(readings: int -> Result<(real, real)>) returns (reported: map<int, (real, real)>)
      requires IssuedKeys(twoFloatsSensorScans, TwoFloatValues, nextSlot) && Distinct(twoFloatsSensorScans)
      modifies this, twoFloatsSensorScans.Values
      ensures nextSlot == old(nextSlot) && scanTaskRunning == old(scanTaskRunning) && taskLog == old(taskLog)
      ensures analogueSensorScans == old(analogueSensorScans) && digitalSensorScans == old(digitalSensorScans)
      ensures unchanged(analogueSensorScans.Values, digitalSensorScans.Values)
      ensures twoFloatsSensorScans == old(twoFloatsSensorScans) - old(ThrowingScans(twoFloatsSensorScans, readings))
      ensures ScannedFrom(old(twoFloatsSensorScans), old(Snapshot(twoFloatsSensorScans)), readings)
      ensures ReportedFrom(old(twoFloatsSensorScans), old(Snapshot(twoFloatsSensorScans)), readings, reported)
      ensures IssuedKeys(twoFloatsSensorScans, TwoFloatValues, nextSlot) && Distinct(twoFloatsSensorScans)
      ensures twoFloatsSensorScans != map[] ==> old(twoFloatsSensorScans) != map[]
    {
      var copy := twoFloatsSensorScans;
      reported := map[];
      if |copy| == 0 {
        return;
      }
      var updates, removals;
      updates, removals, reported := ScanPass(copy, readings);
      MergeOfOwnCopy(copy, updates, removals);
      RemovalKeepsKeys(twoFloatsSensorScans, removals, TwoFloatValues, nextSlot);
      assert removals == old(ThrowingScans(twoFloatsSensorScans, readings)) by {
        forall key
          ensures key in removals <==> key in old(ThrowingScans(twoFloatsSensorScans, readings))
        {
        }
      }
      twoFloatsSensorScans := Merge(twoFloatsSensorScans, updates, removals);
    }

    /** `doAnalogueScans`, the same for 16-bit values. */
    method DoAnalogueScans(readings: int -> Result<uint16>) returns (reported: map<int, uint16>)
      requires IssuedKeys(analogueSensorScans, AnalogueValue, nextSlot) && Distinct(analogueSensorScans)
      modifies this, analogueSensorScans.Values
      ensures nextSlot == old(nextSlot) && scanTaskRunning == old(scanTaskRunning) && taskLog == old(taskLog)
      ensures twoFloatsSensorScans == old(twoFloatsSensorScans) && digitalSensorScans == old(digitalSensorScans)
      ensures unchanged(twoFloatsSensorScans.Values, digitalSensorScans.Values)
      ensures analogueSensorScans == old(analogueSensorScans) - old(ThrowingScans(analogueSensorScans, readings))
      ensures ScannedFrom(old(analogueSensorScans), old(Snapshot(analogueSensorScans)), readings)
      ensures ReportedFrom(old(analogueSensorScans), old(Snapshot(analogueSensorScans)), readings, reported)
      ensures IssuedKeys(analogueSensorScans, AnalogueValue, nextSlot) && Distinct(analogueSensorScans)
      ensures analogueSensorScans != map[] ==> old(analogueSensorScans) != map[]
    {
      var copy := analogueSensorScans;
      reported := map[];
      if |copy| == 0 {
        return;
      }
      var updates, removals;
      updates, removals, reported := ScanPass(copy, readings);
      MergeOfOwnCopy(copy, updates, removals);
      RemovalKeepsKeys(analogueSensorScans, removals, AnalogueValue, nextSlot);
      assert removals == old(ThrowingScans(analogueSensorScans, readings)) by {
        forall key
          ensures key in removals <==> key in old(ThrowingScans(analogueSensorScans, readings))
        {
        }
      }
      analogueSensorScans := Merge(analogueSensorScans, updates, removals);
    }

    /** `doDigitalScans`, the same for digital levels. */
    method DoDigitalScans(readings: int -> Result<DigitalValue>) returns (reported: map<int, DigitalValue>)
      requires IssuedKeys(digitalSensorScans, DigitalOutputValue, nextSlot) && Distinct(digitalSensorScans)
      modifies this, digitalSensorScans.Values
      ensures nextSlot == old(nextSlot) && scanTaskRunning == old(scanTaskRunning) && taskLog == old(taskLog)
      ensures twoFloatsSensorScans == old(twoFloatsSensorScans) && analogueSensorScans == old(analogueSensorScans)
      ensures unchanged(twoFloatsSensorScans.Values, analogueSensorScans.Values)
      ensures digitalSensorScans == old(digitalSensorScans) - old(ThrowingScans(digitalSensorScans, readings))
      ensures ScannedFrom(old(digitalSensorScans), old(Snapshot(digitalSensorScans)), readings)
      ensures ReportedFrom(old(digitalSensorScans), old(Snapshot(digitalSensorScans)), readings, reported)
      ensures IssuedKeys(digitalSensorScans, DigitalOutputValue, nextSlot) && Distinct(digitalSensorScans)
      ensures digitalSensorScans != map[] ==> old(digitalSensorScans) != map[]
    {
      var copy := digitalSensorScans;
      reported := map[];
      if |copy| == 0 {
        return;
      }
      var updates, removals;
      updates, removals, reported := ScanPass(copy, readings);
      MergeOfOwnCopy(copy, updates, removals);
      RemovalKeepsKeys(digitalSensorScans, removals, DigitalOutputValue, nextSlot);
      assert removals == old(ThrowingScans(digitalSensorScans, readings)) by {
        forall key
          ensures key in removals <==> key in old(ThrowingScans(digitalSensorScans, readings))
        {
        }
      }
      digitalSensorScans := Merge(digitalSensorScans, updates, removals);
    }

    /** The last two passes of `doScans`: 16-bit values, then digital
        levels. */
    method ScanAnalogueAndDigital(analogueReadings: int -> Result<uint16>, digitalReadings: int -> Result<DigitalValue>,
                                  ghost analogueBefore: map<int, (Option<SupportPort>, Option<uint16>)>,
                                  ghost digitalBefore: map<int, (Option<SupportPort>, Option<DigitalValue>)>,
                                  ghost analogueThrowing: set<int>, ghost digitalThrowing: set<int>)
      returns (analogueReported: map<int, uint16>, digitalReported: map<int, DigitalValue>)
      requires IssuedKeys(analogueSensorScans, AnalogueValue, nextSlot) && Distinct(analogueSensorScans)
      requires IssuedKeys(digitalSensorScans, DigitalOutputValue, nextSlot) && Distinct(digitalSensorScans)
      requires analogueBefore == Snapshot(analogueSensorScans) && digitalBefore == Snapshot(digitalSensorScans)
      requires analogueThrowing == ThrowingScans(analogueSensorScans, analogueReadings)
      requires digitalThrowing == ThrowingScans(digitalSensorScans, digitalReadings)
      modifies this, analogueSensorScans.Values, digitalSensorScans.Values
      ensures nextSlot == old(nextSlot) && scanTaskRunning == old(scanTaskRunning) && taskLog == old(taskLog)
      ensures twoFloatsSensorScans == old(twoFloatsSensorScans) && unchanged(twoFloatsSensorScans.Values)
      ensures analogueSensorScans == old(analogueSensorScans) - analogueThrowing
      ensures digitalSensorScans == old(digitalSensorScans) - digitalThrowing
      ensures ScannedFrom(old(analogueSensorScans), analogueBefore, analogueReadings)
      ensures ReportedFrom(old(analogueSensorScans), analogueBefore, analogueReadings, analogueReported)
      ensures ScannedFrom(old(digitalSensorScans), digitalBefore, digitalReadings)
      ensures ReportedFrom(old(digitalSensorScans), digitalBefore, digitalReadings, digitalReported)
      ensures IssuedKeys(analogueSensorScans, AnalogueValue, nextSlot) && Distinct(analogueSensorScans)
      ensures IssuedKeys(digitalSensorScans, DigitalOutputValue, nextSlot) && Distinct(digitalSensorScans)
      ensures analogueSensorScans != map[] ==> old(analogueSensorScans) != map[]
      ensures digitalSensorScans != map[] ==> old(digitalSensorScans) != map[]
    {
      ghost var analogue := analogueSensorScans;
      analogueReported := DoAnalogueScans(analogueReadings);
      assert digitalThrowing == ThrowingScans(digitalSensorScans, digitalReadings);
      assert digitalBefore == Snapshot(digitalSensorScans);
      digitalReported := DoDigitalScans(digitalReadings);
      assert ScannedFrom(analogue, analogueBefore, analogueReadings);
    }

    /** The three passes of `doScans`, in order: two-float values, 16-bit
        values, digital levels. The ghost parameters are the scans' I/O
        objects and last values, and the ids whose read throws, when the
        passes start. */
    method ScanAllKinds(twoFloatsReadings: int -> Result<(real, real)>, analogueReadings: int -> Result<uint16>,
                        digitalReadings: int -> Result<DigitalValue>,
                        ghost twoFloatsBefore: map<int, (Option<SupportPort>, Option<(real, real)>)>,
                        ghost analogueBefore: map<int, (Option<SupportPort>, Option<uint16>)>,
                        ghost digitalBefore: map<int, (Option<SupportPort>, Option<DigitalValue>)>,
                        ghost twoFloatsThrowing: set<int>, ghost analogueThrowing: set<int>, ghost digitalThrowing: set<int>)
      returns (twoFloatsReported: map<int, (real, real)>, analogueReported: map<int, uint16>,
               digitalReported: map<int, DigitalValue>)
      requires Valid()
      requires twoFloatsBefore == Snapshot(twoFloatsSensorScans)
      requires analogueBefore == Snapshot(analogueSensorScans) && digitalBefore == Snapshot(digitalSensorScans)
      requires twoFloatsThrowing == ThrowingScans(twoFloatsSensorScans, twoFloatsReadings)
      requires analogueThrowing == ThrowingScans(analogueSensorScans, analogueReadings)
      requires digitalThrowing == ThrowingScans(digitalSensorScans, digitalReadings)
      modifies this, twoFloatsSensorScans.Values, analogueSensorScans.Values, digitalSensorScans.Values
      ensures nextSlot == old(nextSlot) && scanTaskRunning == old(scanTaskRunning) && taskLog == old(taskLog)
      ensures twoFloatsSensorScans == old(twoFloatsSensorScans) - twoFloatsThrowing
      ensures analogueSensorScans == old(analogueSensorScans) - analogueThrowing
      ensures digitalSensorScans == old(digitalSensorScans) - digitalThrowing
      ensures ScannedFrom(old(twoFloatsSensorScans), twoFloatsBefore, twoFloatsReadings)
      ensures ReportedFrom(old(twoFloatsSensorScans), twoFloatsBefore, twoFloatsReadings, twoFloatsReported)
      ensures ScannedFrom(old(analogueSensorScans), analogueBefore, analogueReadings)
      ensures ReportedFrom(old(analogueSensorScans), analogueBefore, analogueReadings, analogueReported)
      ensures ScannedFrom(old(digitalSensorScans), digitalBefore, digitalReadings)
      ensures ReportedFrom(old(digitalSensorScans), digitalBefore, digitalReadings, digitalReported)
      ensures IssuedKeys(twoFloatsSensorScans, TwoFloatValues, nextSlot) && Distinct(twoFloatsSensorScans)
      ensures IssuedKeys(analogueSensorScans, AnalogueValue, nextSlot) && Distinct(analogueSensorScans)
      ensures IssuedKeys(digitalSensorScans, DigitalOutputValue, nextSlot) && Distinct(digitalSensorScans)
      ensures !Empty() ==> !old(Empty())
    {
      ghost var twoFloats := twoFloatsSensorScans;
      twoFloatsReported := DoTwoFloatsScans(twoFloatsReadings);
      label TwoFloatsScanned:
      analogueReported, digitalReported := ScanAnalogueAndDigital(analogueReadings, digitalReadings,
                                                                   analogueBefore, digitalBefore, analogueThrowing, digitalThrowing);
      assert ScannedFrom(twoFloats, twoFloatsBefore, twoFloatsReadings) by {
        forall k | k in twoFloats
          ensures twoFloats[k].source == twoFloatsBefore[k].0
          ensures twoFloats[k].lastValue == LastValueAfter(twoFloatsBefore[k].0, twoFloatsBefore[k].1, twoFloatsReadings(k))
        {
          assert old@TwoFloatsScanned(twoFloats[k].source) == twoFloats[k].source;
          assert old@TwoFloatsScanned(twoFloats[k].lastValue) == twoFloats[k].lastValue;
        }
      }
    }

    /** `doScans`: the three passes, then the scan task stops if no scan is
        left. */
    method DoScans(twoFloatsReadings: int -> Result<(real, real)>, analogueReadings: int -> Result<uint16>,
                   digitalReadings: int -> Result<DigitalValue>)
      returns (twoFloatsReported: map<int, (real, real)>, analogueReported: map<int, uint16>,
               digitalReported: map<int, DigitalValue>)
      requires Valid()
      modifies this, twoFloatsSensorScans.Values, analogueSensorScans.Values, digitalSensorScans.Values
      ensures Valid() && nextSlot == old(nextSlot)
      ensures twoFloatsSensorScans == old(twoFloatsSensorScans) - old(ThrowingScans(twoFloatsSensorScans, twoFloatsReadings))
      ensures analogueSensorScans == old(analogueSensorScans) - old(ThrowingScans(analogueSensorScans, analogueReadings))
      ensures digitalSensorScans == old(digitalSensorScans) - old(ThrowingScans(digitalSensorScans, digitalReadings))
      ensures taskLog == old(taskLog) + (if Empty() && old(scanTaskRunning) then [StopScans] else [])
      ensures ScannedFrom(old(twoFloatsSensorScans), old(Snapshot(twoFloatsSensorScans)), twoFloatsReadings)
      ensures ReportedFrom(old(twoFloatsSensorScans), old(Snapshot(twoFloatsSensorScans)), twoFloatsReadings, twoFloatsReported)
      ensures ScannedFrom(old(analogueSensorScans), old(Snapshot(analogueSensorScans)), analogueReadings)
      ensures ReportedFrom(old(analogueSensorScans), old(Snapshot(analogueSensorScans)), analogueReadings, analogueReported)
      ensures ScannedFrom(old(digitalSensorScans), old(Snapshot(digitalSensorScans)), digitalReadings)
      ensures ReportedFrom(old(digitalSensorScans), old(Snapshot(digitalSensorScans)), digitalReadings, digitalReported)
    {
      twoFloatsReported, analogueReported, digitalReported :=
        ScanAllKinds(twoFloatsReadings, analogueReadings, digitalReadings,
                     Snapshot(twoFloatsSensorScans), Snapshot(analogueSensorScans), Snapshot(digitalSensorScans),
                     ThrowingScans(twoFloatsSensorScans, twoFloatsReadings), ThrowingScans(analogueSensorScans, analogueReadings),
                     ThrowingScans(digitalSensorScans, digitalReadings));
      CheckScansStatusAfterRemove();
    }
  }

  /** The I/O object and last value of every scan of a dictionary. */
  ghost function Snapshot<DT>(m: map<int, SensorScan<DT>>): map<int, (Option<SupportPort>, Option<DT>)>
    reads m.Values
  {
    map k | k in m :: (m[k].source, m[k].lastValue)
  }

  /** What a pass over the scans of `m`, which started from `before`, left
      in them: every scan keeps its I/O object and holds the last value its
      reading leads to. */
  ghost predicate ScannedFrom<DT>(m: map<int, SensorScan<DT>>, before: map<int, (Option<SupportPort>, Option<DT>)>,
                                  readings: int -> Result<DT>)
    reads m.Values
  {
    m.Keys == before.Keys
    && forall k :: k in m ==>
         m[k].source == before[k].0 && m[k].lastValue == LastValueAfter(before[k].0, before[k].1, readings(k))
  }

  /** What a pass over the scans of `m`, which started from `before`,
      reported: exactly the ids whose value changed, each with the value
      read. */
  ghost predicate ReportedFrom<DT>(m: map<int, SensorScan<DT>>, before: map<int, (Option<SupportPort>, Option<DT>)>,
                                   readings: int -> Result<DT>, reported: map<int, DT>)
  {
    m.Keys == before.Keys
    && (forall k :: k in reported <==>
          k in m && ScanOutcome(before[k].0, before[k].1, m[k].ifChanged, readings(k)).Changed?)
    && (forall k :: k in reported ==> readings(k).Ok? && reported[k] == readings(k).value)
  }

  /** The ids whose scan has an I/O object `==` to the port. */
  function Matching<DT>(m: map<int, SensorScan<DT>>, port: SupportPort): (ids: set<int>)
    reads m.Values
    ensures forall k :: k in ids <==> k in m && m[k].source.Some? && SameIO(m[k].source.value, port)
  {
    set k | k in m && m[k].source.Some? && SameIO(m[k].source.value, port)
  }

  /** The ids whose scan has an I/O object and whose read throws. */
  function ThrowingScans<DT>(m: map<int, SensorScan<DT>>, readings: int -> Result<DT>): (ids: set<int>)
    reads m.Values
    ensures forall k :: k in ids <==> k in m && m[k].source.Some? && readings(k).Err?
  {
    set k | k in m && m[k].source.Some? && readings(k).Err?
  }

  /** One of the three steps of `removeAllSensorScan`: when the dictionary
      is not empty, the ids its `filter` selects are removed. */
  method RemoveMatching<DT>(m: map<int, SensorScan<DT>>, port: SupportPort, t: SensorOutputType, nextSlot: nat)
    returns (kept: map<int, SensorScan<DT>>)
    requires IssuedKeys(m, t, nextSlot) && Distinct(m)
    ensures kept == m - Matching(m, port)
    ensures IssuedKeys(kept, t, nextSlot) && Distinct(kept)
    ensures kept != map[] ==> m != map[]
  {
    var matching := Matching(m, port);
    RemovalKeepsKeys(m, matching, t, nextSlot);
    if |m| > 0 {
      kept := RemoveKeys(m, matching);
    } else {
      kept := m;
      assert kept.Keys == (m - matching).Keys;
    }
  }

  /** The `forEach` of `removeAllSensorScan` on one dictionary: the ids
      its `filter` selected are removed one by one. */
  method RemoveKeys<DT>(m: map<int, SensorScan<DT>>, ids: set<int>) returns (kept: map<int, SensorScan<DT>>)
    ensures kept == m - ids
  {
    kept := m;
    var remaining := ids;
    while remaining != {}
      invariant remaining <= ids
      invariant kept == m - (ids - remaining)
      decreases |remaining|
    {
      NonEmptyHasMember(remaining);
      var k :| k in remaining;
      kept := kept - {k};
      remaining := remaining - {k};
    }
  }

  /** A pass over the dictionary's own copy: every update puts back the
      scan already there, so the merge leaves exactly the scans whose read
      did not throw. */
  lemma MergeOfOwnCopy<DT>(copy: map<int, SensorScan<DT>>, updates: map<int, SensorScan<DT>>, removals: set<int>)
    requires forall k :: k in updates ==> k in copy && updates[k] == copy[k]
    ensures Merge(copy, updates, removals) == copy - removals
  {
    var merged := Merge(copy, updates, removals);
    assert merged.Keys == (copy - removals).Keys;
    forall k | k in merged
      ensures merged[k] == (copy - removals)[k]
    {
    }
  }

  /** Taking scans out keeps the keys issued and the scans distinct, and
      leaves the dictionary non-empty only if it was non-empty before. */
  lemma RemovalKeepsKeys<DT>(m: map<int, SensorScan<DT>>, gone: set<int>, t: SensorOutputType, nextSlot: nat)
    requires IssuedKeys(m, t, nextSlot) && Distinct(m)
    ensures IssuedKeys(m - gone, t, nextSlot) && Distinct(m - gone)
    ensures m - gone != map[] ==> m != map[]
  {
    if m == map[] {
      assert (m - gone).Keys == {};
    }
  }

  /** A non-empty set of ids has a member, for the `:|` picks of the loops that drain such a set. */
  lemma NonEmptyHasMember(s: set<int>)
    requires s != {}
    ensures exists k :: k in s
  {
    if forall k :: k !in s {
      assert false;
    }
  }
}
