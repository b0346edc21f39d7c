/** The earlier `GrovePiBusScanner` (Sources/Sensors): a plain list of scan
    items keyed by `EquatablePortLabel`, with no interval floor and no
    scheduler. A new item's first due time is aligned down to a whole
    number of intervals since the reference date. Times are microseconds
    since the reference date. */
module OldScanner {
  import opened Common
  import opened GrovePiIO
  import opened PortLabels
  import Scanner

  /** `truncatingRemainder(dividingBy:)`: the remainder of the division
      rounded toward zero, which has the sign of the dividend; dividing by
      -d gives the same remainder as dividing by d. */
  function TruncatingRemainder(x: int, d: int): (r: int)
    requires d != 0
    ensures x >= 0 ==> 0 <= r < Abs(d)
    ensures x < 0 ==> -(Abs(d) as int) < r <= 0
  {
    if x >= 0 then x % Abs(d) else -((-x) % Abs(d))
  }

  function Abs(x: int): nat {
    if x < 0 then -x else x
  }

  /** `alignedInitialTimeInterval`: now minus its remainder by the
      interval. */
  function AlignedInitialTimeInterval(now: Time, sampleTimeInterval: Time): (aligned: Time)
    requires sampleTimeInterval != 0
    ensures now >= 0 ==> aligned <= now < aligned + Abs(sampleTimeInterval)
    ensures now < 0 ==> now <= aligned < now + Abs(sampleTimeInterval)
  {
    now - TruncatingRemainder(now, sampleTimeInterval)
  }

  /** The aligned time is a whole number of intervals since the reference
      date and lies less than one interval from now: at or before now for
      times after the reference date, at or after now for times before
      it. */
  lemma {:induction false} AlignedIsWholeIntervals(now: Time, sampleTimeInterval: Time) returns (k: int)
    requires sampleTimeInterval != 0
    ensures AlignedInitialTimeInterval(now, sampleTimeInterval) == k * Abs(sampleTimeInterval)
    ensures now >= 0 ==>
      0 <= now - AlignedInitialTimeInterval(now, sampleTimeInterval) < Abs(sampleTimeInterval)
    ensures now < 0 ==>
      0 <= AlignedInitialTimeInterval(now, sampleTimeInterval) - now < Abs(sampleTimeInterval)
  {
    var d := Abs(sampleTimeInterval);
    if now >= 0 {
      k := now / d;
      assert now == d * (now / d) + now % d;
    } else {
      k := -((-now) / d);
      assert -now == d * ((-now) / d) + (-now) % d;
    }
  }

  /** A scan item of this revision, a value: its label, its sample interval
      and the time it is next due. The evaluation closure is not kept; it
      is the `evaluation` parameter of `Evaluate`. */
  datatype ScanItem = ScanItem(equatablePortLabel: EquatablePortLabel, sampleTimeInterval: Time, nextTimeInterval: Time)

  /** `ScanItem.init`: the label made equatable, the interval as given, and
      the first due time aligned. */
  function NewScanItem(portLabel: PortLabel, sampleTimeInterval: Time, now: Time): (item: ScanItem)
    requires sampleTimeInterval != 0
    ensures item.equatablePortLabel.portLabel == portLabel && item.sampleTimeInterval == sampleTimeInterval
    ensures now >= 0 ==> item.nextTimeInterval <= now
  {
    ScanItem(EquatablePortLabel(portLabel), sampleTimeInterval, AlignedInitialTimeInterval(now, sampleTimeInterval))
  }

  /** `evaluate`, a mutating method of the item: run the evaluation, whose
      result is `evaluation`; a throw propagates and leaves the item as it
      was; otherwise the due time moves on by whole intervals until it is
      after now. The loop ends only for a positive interval. */
  method Evaluate(item: ScanItem, now: Time, evaluation: Outcome) returns (outcome: Outcome, evaluated: ScanItem)
    requires item.sampleTimeInterval > 0
    ensures outcome == evaluation
    ensures evaluation.Fail? ==> evaluated == item
    ensures evaluation.Pass? ==>
      evaluated == item.(nextTimeInterval := Scanner.NextDue(item.nextTimeInterval, item.sampleTimeInterval, now))
  {
    outcome := evaluation;
    evaluated := item;
    if evaluation.Fail? {
      return;
    }
    var next := item.nextTimeInterval + item.sampleTimeInterval;
    while next <= now
      invariant Scanner.NextDue(item.nextTimeInterval, item.sampleTimeInterval, now)
        == Scanner.NextDue(next - item.sampleTimeInterval, item.sampleTimeInterval, now)
      decreases now - next
    {
      next := next + item.sampleTimeInterval;
    }
    evaluated := item.(nextTimeInterval := next);
  }

  /** After a successful evaluation the item is due after now, a whole
      number (at least one) of intervals after it was due before. */
  lemma EvaluationMovesPastNow(item: ScanItem, now: Time)
    requires item.sampleTimeInterval > 0
    ensures var next := Scanner.NextDue(item.nextTimeInterval, item.sampleTimeInterval, now);
      next > now && exists k: nat :: k >= 1 && next == item.nextTimeInterval + k * item.sampleTimeInterval
  {
    var k := Scanner.NextDueIsWholeIntervals(item.nextTimeInterval, item.sampleTimeInterval, now);
  }

  /** `index(where:)`: the first item, from position `from`, whose label is
      `==` to the given one. */
  function FirstMatch(items: seq<ScanItem>, target: EquatablePortLabel, from: nat := 0): (r: Option<nat>)
    requires from <= |items|
    ensures r.Some? ==> from <= r.value < |items| && Equal(items[r.value].equatablePortLabel, target)
    ensures r.Some? ==> forall j :: from <= j < r.value ==> !Equal(items[j].equatablePortLabel, target)
    ensures r.None? ==> forall j :: from <= j < |items| ==> !Equal(items[j].equatablePortLabel, target)
    decreases |items| - from
  {
    if from == |items| then None
    else if Equal(items[from].equatablePortLabel, target) then Some(from)
    else FirstMatch(items, target, from + 1)
  }

  /** The list of this revision's scanner. */
  class GrovePiBusScanner {
    var scanItems: seq<ScanItem>

    constructor()
      ensures scanItems == []
    {
      scanItems := [];
    }

    /** `addScanItem`: append a new item with the interval exactly as given;
        the same port may be listed more than once. A zero interval gives
        a not-a-number due time, which the integer times here cannot
        represent. */
    method AddScanItem(portLabel: PortLabel, sampleTimeInterval: Time, now: Time)
      requires sampleTimeInterval != 0
      modifies this
      ensures scanItems == old(scanItems) + [NewScanItem(portLabel, sampleTimeInterval, now)]
    {
      var scanItem := NewScanItem(portLabel, sampleTimeInterval, now);
      scanItems := scanItems + [scanItem];
    }

    /** `removeScanItem`: remove the first item whose label is `==` to the
        given one; with no match nothing changes. */
    method RemoveScanItem(portLabel: PortLabel)
      modifies this
      ensures FirstMatch(old(scanItems), EquatablePortLabel(portLabel)).None? ==> scanItems == old(scanItems)
      ensures FirstMatch(old(scanItems), EquatablePortLabel(portLabel)).Some? ==>
        var i := FirstMatch(old(scanItems), EquatablePortLabel(portLabel)).value;
        |scanItems| == |old(scanItems)| - 1
        && scanItems == old(scanItems)[..i] + old(scanItems)[i + 1..]
    {
      var equatablePortLabel := EquatablePortLabel(portLabel);
      var toBeRemovedIndex := FirstMatch(scanItems, equatablePortLabel);
      if toBeRemovedIndex.Some? {
        var i := toBeRemovedIndex.value;
        scanItems := scanItems[..i] + scanItems[i + 1..];
      }
    }
  }

  /** The item removal takes out carries the port's own label, and no item
      before it does: it is the first of that port. */
  lemma RemovesOnlyFirstOfLabel(items: seq<ScanItem>, portLabel: PortLabel, i: nat)
    requires FirstMatch(items, EquatablePortLabel(portLabel)) == Some(i)
    ensures forall j :: 0 <= j < i ==> items[j].equatablePortLabel.portLabel != portLabel
    ensures items[i].equatablePortLabel.portLabel == portLabel
  {
    EqualIffSameLabel(items[i].equatablePortLabel, EquatablePortLabel(portLabel));
    forall j | 0 <= j < i ensures items[j].equatablePortLabel.portLabel != portLabel {
      EqualIffSameLabel(items[j].equatablePortLabel, EquatablePortLabel(portLabel));
    }
  }

  /** `Int16(_:)` of an unsigned 16-bit value traps above 32767. */
  predicate FitsInt16(v: uint16) {
    v <= 0x7FFF
  }

  /** `areSignificantDifferent` for 10-bit analogue values: the values
      differ by at least 2. The conversion to Int16 makes values above 32767
      a trap. */
  function AnalogueSignificantlyDifferent(newValue: uint16, previousValue: uint16): (b: bool)
    requires FitsInt16(newValue) && FitsInt16(previousValue)
    ensures b ==> newValue != previousValue
    ensures newValue == previousValue + 1 || previousValue == newValue + 1 ==> !b
  {
    Abs(newValue - previousValue) >= 2
  }

  /** `areSignificantDifferent` for digital values: the raw values differ. */
  function DigitalSignificantlyDifferent(newValue: DigitalValue, previousValue: DigitalValue): (b: bool)
    ensures b <==> newValue != previousValue
  {
    newValue.RawValue() != previousValue.RawValue()
  }

  /** The analogue test is symmetric and ignores changes of one step, so it
      is stricter than the current revision's "the values differ"; the
      digital test is exactly "the levels differ". */
  lemma SignificanceOfThisRevision(a: uint16, b: uint16, d: DigitalValue, e: DigitalValue)
    requires FitsInt16(a) && FitsInt16(b)
    ensures AnalogueSignificantlyDifferent(a, b) <==> AnalogueSignificantlyDifferent(b, a)
    ensures AnalogueSignificantlyDifferent(a, b) ==> a != b
    ensures a == b + 1 || b == a + 1 ==> !AnalogueSignificantlyDifferent(a, b)
    ensures DigitalSignificantlyDifferent(d, e) <==> d != e
  {
  }
}
