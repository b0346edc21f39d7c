/** `GrovePiBusScanner`: the set of inputs whose changes are watched. Each
    scan item has a port label, a sample interval and the time it is next
    due; a scheduler polls at the shortest interval and evaluates the items
    that are due. Times are microseconds since the reference date. */
module Scanner {
  import opened Common
  import opened AnyPortLabel

  /** `minimumSampleTimeInterval`: 0.001 s. */
  const MinimumSampleTimeInterval: Time := 1000

  /** The start value of the `reduce` that computes the poll interval:
      1 000 000 s. */
  const ReduceSeed: Time := 1_000_000 * MicrosecondsPerSecond

  /** The interval an item is stored with: `max(requested, minimum)`. */
  function StoredInterval(requested: Time): (s: Time)
    ensures s >= MinimumSampleTimeInterval && s >= requested
    ensures s == requested || s == MinimumSampleTimeInterval
  {
    if requested < MinimumSampleTimeInterval then MinimumSampleTimeInterval else requested
  }

  function Min(a: Time, b: Time): Time {
    if b < a then b else a
  }

  /** `reduce(acc, { min($0, $1) })` over a list of intervals: the least of
      the start value and every interval. */
  function ReduceMin(acc: Time, intervals: seq<Time>): (m: Time)
    ensures m <= acc
    ensures forall i :: 0 <= i < |intervals| ==> m <= intervals[i]
    ensures m == acc || exists i :: 0 <= i < |intervals| && m == intervals[i]
    decreases |intervals|
  {
    if |intervals| == 0 then acc
    else
      var m := ReduceMin(Min(acc, intervals[0]), intervals[1..]);
      assert m != acc && m != intervals[0] ==> exists i :: 1 <= i < |intervals| && m == intervals[i] by {
        if m != acc && m != intervals[0] {
          var j :| 0 <= j < |intervals[1..]| && m == intervals[1..][j];
          assert m == intervals[j + 1];
        }
      }
      m
  }

  /** `evaluate`'s repeat loop as a closed form: the first time after `next`
      that is a whole number (at least one) of intervals later and after t. */
  function NextDue(next: Time, interval: Time, t: Time): (r: Time)
    requires interval > 0
    ensures r > t && r > next
    ensures r - interval == next || r - interval <= t
    decreases t - next
  {
    if next + interval > t then next + interval
    else NextDue(next + interval, interval, t)
  }

  /** The advance is a whole number k >= 1 of intervals, and it is the
      least such number that passes t. */
  lemma {:induction false} NextDueIsWholeIntervals(next: Time, interval: Time, t: Time) returns (k: nat)
    requires interval > 0
    ensures k >= 1 && NextDue(next, interval, t) == next + k * interval
    ensures next + k * interval > t && (k == 1 || next + (k - 1) * interval <= t)
    decreases t - next
  {
    if next + interval > t {
      k := 1;
    } else {
      var k' := NextDueIsWholeIntervals(next + interval, interval, t);
      k := k' + 1;
      assert next + k * interval == next + interval + k' * interval;
    }
  }

  /** The next-due time of an item after one tick at t: advanced when the
      item was due and its evaluation passed, otherwise unchanged. */
  function Advanced(next: Time, interval: Time, t: Time, result: Outcome): Time
    requires interval > 0
  {
    if next <= t && result.Pass? then NextDue(next, interval, t) else next
  }

  /** `ScanItem`: a port label, a fixed sample interval, and the time the
      item is next due, which evaluations move forward. */
  class ScanItem {
    const wrappedPortLabel: AnyGrovePiPortLabel
    const sampleTimeInterval: Time
    var nextTimeInterval: Time

    /** `init`: the label is erased and the item is due at once (`now` is
        the current date). */
    constructor(portLabel: LabelArgument, sampleTimeInterval: Time, now: Time)
      ensures wrappedPortLabel == Erase(portLabel)
      ensures this.sampleTimeInterval == sampleTimeInterval
      ensures nextTimeInterval == now
    {
      wrappedPortLabel := Erase(portLabel);
      this.sampleTimeInterval := sampleTimeInterval;
      nextTimeInterval := now;
    }

    /** `evaluate`: run the evaluation, whose result is `evaluation`; when
        it throws, the error propagates and the next-due time stays put,
        otherwise it moves on by whole intervals until it is after t. The
        loop ends because the interval is positive. */
    method Evaluate(t: Time, evaluation: Outcome) returns (outcome: Outcome)
      requires sampleTimeInterval > 0
      modifies this
      ensures outcome == evaluation
      ensures evaluation.Fail? ==> nextTimeInterval == old(nextTimeInterval)
      ensures evaluation.Pass? ==> nextTimeInterval == NextDue(old(nextTimeInterval), sampleTimeInterval, t)
    {
      outcome := evaluation;
      if evaluation.Fail? {
        return;
      }
      ghost var start := nextTimeInterval;
      nextTimeInterval := nextTimeInterval + sampleTimeInterval;
      while nextTimeInterval <= t
        invariant NextDue(start, sampleTimeInterval, t) == NextDue(nextTimeInterval - sampleTimeInterval, sampleTimeInterval, t)
        decreases t - nextTimeInterval
      {
        nextTimeInterval := nextTimeInterval + sampleTimeInterval;
      }
    }
  }

  /** The sample intervals of a list of items. */
  function Intervals(items: seq<ScanItem>): (r: seq<Time>)
    ensures |r| == |items|
    ensures forall i :: 0 <= i < |items| ==> r[i] == items[i].sampleTimeInterval
  {
    seq(|items|, i requires 0 <= i < |items| => items[i].sampleTimeInterval)
  }

  /** The next-due times of a list of items. */
  function Nexts(items: seq<ScanItem>): (r: seq<Time>)
    reads items
    ensures |r| == |items|
    ensures forall i :: 0 <= i < |items| ==> r[i] == items[i].nextTimeInterval
  {
    seq(|items|, i requires 0 <= i < |items| reads items => items[i].nextTimeInterval)
  }

  /** `index(where:)` from position `from`: the first item whose label is
      `==` to the given one. */
  function FirstMatch(items: seq<ScanItem>, target: AnyGrovePiPortLabel, from: nat := 0): (r: Option<nat>)
    requires from <= |items|
    ensures r.Some? ==> from <= r.value < |items| && Equals(items[r.value].wrappedPortLabel, target)
    ensures r.Some? ==> forall j :: from <= j < r.value ==> !Equals(items[j].wrappedPortLabel, target)
    ensures r.None? ==> forall j :: from <= j < |items| ==> !Equals(items[j].wrappedPortLabel, target)
    decreases |items| - from
  {
    if from == |items| then None
    else if Equals(items[from].wrappedPortLabel, target) then Some(from)
    else FirstMatch(items, target, from + 1)
  }

  /** The list after `removeScanItem`: the first matching item removed, or
      the list unchanged when none matches. */
  function RemoveFirst(items: seq<ScanItem>, target: AnyGrovePiPortLabel): seq<ScanItem> {
    match FirstMatch(items, target)
    case None => items
    case Some(i) => items[..i] + items[i + 1..]
  }

  /** Removal takes out exactly the first matching item: the list is
      unchanged when none matches, and otherwise loses that one item and
      keeps every other. */
  lemma RemoveFirstTakesOnlyTheMatch(items: seq<ScanItem>, target: AnyGrovePiPortLabel)
    ensures FirstMatch(items, target).None? ==> RemoveFirst(items, target) == items
    ensures FirstMatch(items, target).Some? ==>
      var i := FirstMatch(items, target).value;
      |RemoveFirst(items, target)| == |items| - 1
      && multiset(RemoveFirst(items, target)) + multiset{items[i]} == multiset(items)
  {
    if FirstMatch(items, target).Some? {
      var i := FirstMatch(items, target).value;
      assert items == items[..i] + [items[i]] + items[i + 1..];
    }
  }

  /** The list after removing the first match of each label in turn. */
  function RemoveEach(items: seq<ScanItem>, labels: seq<AnyGrovePiPortLabel>): seq<ScanItem> {
    if |labels| == 0 then items
    else RemoveFirst(RemoveEach(items, labels[..|labels| - 1]), labels[|labels| - 1])
  }

  /** The list after removing, for each label of a set, the first item
      with that label; the result does not depend on any order of the
      labels. */
  function WithoutFirstOf(items: seq<ScanItem>, labels: set<AnyGrovePiPortLabel>): seq<ScanItem> {
    if |items| == 0 then []
    else if items[0].wrappedPortLabel in labels then WithoutFirstOf(items[1..], labels - {items[0].wrappedPortLabel})
    else [items[0]] + WithoutFirstOf(items[1..], labels)
  }

  /** With no labels, nothing is removed. */
  lemma {:induction false} WithoutNoLabels(items: seq<ScanItem>)
    ensures WithoutFirstOf(items, {}) == items
  {
    if |items| > 0 {
      WithoutNoLabels(items[1..]);
      assert items == [items[0]] + items[1..];
    }
  }

  /** Removing the first item of one more label is the removal for the
      larger set: `removeScanItem` for the labels of a set, one after the
      other in any order, ends with the same list. */
  lemma {:induction false} RemoveFirstExtends(items: seq<ScanItem>, labels: set<AnyGrovePiPortLabel>, target: AnyGrovePiPortLabel)
    requires target !in labels
    ensures RemoveFirst(WithoutFirstOf(items, labels), target) == WithoutFirstOf(items, labels + {target})
  {
    if |items| > 0 {
      var head := items[0].wrappedPortLabel;
      if head in labels {
        assert (labels + {target}) - {head} == (labels - {head}) + {target};
        RemoveFirstExtends(items[1..], labels - {head}, target);
      } else if head == target {
        assert (labels + {target}) - {head} == labels;
        RemoveFirstAtHead(items[0], WithoutFirstOf(items[1..], labels), target);
      } else {
        RemoveFirstExtends(items[1..], labels, target);
        RemoveFirstPastHead(items[0], WithoutFirstOf(items[1..], labels), target);
      }
    }
  }

  /** An item whose label is the target is the first match. */
  lemma RemoveFirstAtHead(item: ScanItem, rest: seq<ScanItem>, target: AnyGrovePiPortLabel)
    requires item.wrappedPortLabel == target
    ensures RemoveFirst([item] + rest, target) == rest
  {
    assert FirstMatch([item] + rest, target) == Some(0);
  }

  /** An item with another label is kept, and the removal goes on after it. */
  lemma RemoveFirstPastHead(item: ScanItem, rest: seq<ScanItem>, target: AnyGrovePiPortLabel)
    requires item.wrappedPortLabel != target
    ensures RemoveFirst([item] + rest, target) == [item] + RemoveFirst(rest, target)
  {
    var all := [item] + rest;
    var n := FirstMatch(rest, target);
    EqualsIsBaseEquality(item.wrappedPortLabel, target);
    if n.Some? {
      assert FirstMatch(all, target) == Some(n.value + 1) by {
        assert all[n.value + 1] == rest[n.value];
        forall j | 0 <= j < n.value + 1 ensures !Equals(all[j].wrappedPortLabel, target) {
          if j > 0 {
            assert all[j] == rest[j - 1];
          }
        }
      }
      assert all[..n.value + 1] + all[n.value + 2..] == [item] + (rest[..n.value] + rest[n.value + 1..]);
    } else {
      assert FirstMatch(all, target).None? by {
        forall j | 0 <= j < |all| ensures !Equals(all[j].wrappedPortLabel, target) {
          if j > 0 {
            assert all[j] == rest[j - 1];
          }
        }
      }
    }
  }

  /** The items of a snapshot that are due at t, in order. */
  function Due(items: seq<ScanItem>, nexts: seq<Time>, t: Time): seq<ScanItem>
    requires |nexts| == |items|
  {
    if |items| == 0 then []
    else
      var k := |items| - 1;
      Due(items[..k], nexts[..k], t) + (if nexts[k] <= t then [items[k]] else [])
  }

  /** The labels of the due items of a snapshot whose evaluation throws,
      in order; `results(i)` is the evaluation outcome of item i. */
  function FailedLabels(items: seq<ScanItem>, nexts: seq<Time>, t: Time, results: nat -> Outcome): seq<AnyGrovePiPortLabel>
    requires |nexts| == |items|
  {
    if |items| == 0 then []
    else
      var k := |items| - 1;
      FailedLabels(items[..k], nexts[..k], t, results)
        + (if nexts[k] <= t && results(k).Fail? then [items[k].wrappedPortLabel] else [])
  }

  /** Extending a snapshot prefix by one item extends the due items and the
      failed labels by that item's contribution. */
  lemma SnapshotStep(items: seq<ScanItem>, nexts: seq<Time>, t: Time, results: nat -> Outcome, k: nat)
    requires |nexts| == |items| && k < |items|
    ensures Due(items[..k + 1], nexts[..k + 1], t)
      == Due(items[..k], nexts[..k], t) + (if nexts[k] <= t then [items[k]] else [])
    ensures FailedLabels(items[..k + 1], nexts[..k + 1], t, results)
      == FailedLabels(items[..k], nexts[..k], t, results)
        + (if nexts[k] <= t && results(k).Fail? then [items[k].wrappedPortLabel] else [])
  {
    assert items[..k + 1][..k] == items[..k] && nexts[..k + 1][..k] == nexts[..k];
  }

  /** One step of the repeating job keeps the list equal to the snapshot
      with the failed labels so far removed. */
  lemma JobStep(snapshot: seq<ScanItem>, nexts: seq<Time>, t: Time, results: nat -> Outcome, k: nat,
                failed: seq<AnyGrovePiPortLabel>, before: seq<ScanItem>, after: seq<ScanItem>)
    requires |nexts| == |snapshot| && k < |snapshot|
    requires before == RemoveEach(snapshot, failed)
    requires failed == FailedLabels(snapshot[..k], nexts[..k], t, results)
    requires after == if nexts[k] <= t && results(k).Fail? then RemoveFirst(before, snapshot[k].wrappedPortLabel) else before
    ensures var failed' := failed + (if nexts[k] <= t && results(k).Fail? then [snapshot[k].wrappedPortLabel] else []);
      after == RemoveEach(snapshot, failed')
      && failed' == FailedLabels(snapshot[..k + 1], nexts[..k + 1], t, results)
      && Due(snapshot[..k + 1], nexts[..k + 1], t)
         == Due(snapshot[..k], nexts[..k], t) + (if nexts[k] <= t then [snapshot[k]] else [])
  {
    SnapshotStep(snapshot, nexts, t, results, k);
    var l := snapshot[k].wrappedPortLabel;
    if nexts[k] <= t && results(k).Fail? {
      assert (failed + [l])[..|failed|] == failed;
    } else {
      assert failed + [] == failed;
    }
  }

  /** The poll intervals a live scheduler can have: the `reduce` minimum,
      or, for a scheduler just created for a single item, that item's
      interval. */
  predicate PollMatches(poll: Time, intervals: seq<Time>) {
    poll == ReduceMin(ReduceSeed, intervals) || (|intervals| == 1 && poll == intervals[0])
  }

  /** The poll interval never exceeds an item's interval, and it is the
      shortest item interval unless every item is slower than the seed. */
  lemma PollIsShortestInterval(poll: Time, intervals: seq<Time>)
    requires |intervals| > 0 && PollMatches(poll, intervals)
    ensures forall i :: 0 <= i < |intervals| ==> poll <= intervals[i]
    ensures (exists i :: 0 <= i < |intervals| && poll == intervals[i]) || poll == ReduceSeed
    ensures (exists i :: 0 <= i < |intervals| && intervals[i] <= ReduceSeed) ==>
      exists i :: 0 <= i < |intervals| && poll == intervals[i]
  {
  }

  /** Removing the fastest item makes the poll interval longer: the period
      grows as well as shrinks. */
  lemma PollIntervalCanGrow()
    ensures ReduceMin(ReduceSeed, [1000, 5000]) == 1000
    ensures ReduceMin(ReduceSeed, [5000]) == 5000
  {
    assert [1000, 5000][1..] == [5000];
  }

  /** `Scheduler`: the poll interval it waits between runs of the repeating
      job, and whether its work item has been cancelled. */
  class Scheduler {
    var pollTimeInterval: Time
    var cancelled: bool

    /** `init`: polls at the given interval and starts running. */
    constructor(initialPollTimeInterval: Time)
      ensures pollTimeInterval == initialPollTimeInterval && !cancelled
    {
      pollTimeInterval := initialPollTimeInterval;
      cancelled := false;
    }

    /** `cancel`: stops the work item; a second cancel does nothing more. */
    method Cancel()
      modifies this
      ensures cancelled && pollTimeInterval == old(pollTimeInterval)
    {
      cancelled := true;
    }
  }

  class GrovePiBusScanner {
    var scanItems: seq<ScanItem>
    var scheduler: Scheduler?

    /** A scheduler runs iff there are items, every item's interval is at
        least the minimum, no item is listed twice, and the scheduler's poll
        interval is the shortest one. */
    predicate Valid()
      reads this, scheduler
    {
      (scheduler == null <==> |scanItems| == 0)
      && (forall i :: 0 <= i < |scanItems| ==> scanItems[i].sampleTimeInterval >= MinimumSampleTimeInterval)
      && (forall i, j :: 0 <= i < j < |scanItems| ==> scanItems[i] != scanItems[j])
      && (scheduler != null ==> !scheduler.cancelled && PollMatches(scheduler.pollTimeInterval, Intervals(scanItems)))
    }

    constructor()
      ensures Valid() && scanItems == [] && scheduler == null
    {
      scanItems := [];
      scheduler := null;
    }

    /** `setupAdaptOrRemoveScheduler`: create a scheduler polling at the
        first item's interval when there is none (the list must then be
        non-empty), set the poll interval to the `reduce` minimum while
        items remain, or cancel and drop the scheduler once the list is
        empty. */
    method SetupAdaptOrRemoveScheduler()
      requires scheduler == null ==> |scanItems| > 0
      modifies this, scheduler
      ensures scanItems == old(scanItems)
      ensures old(scheduler) == null ==>
        scheduler != null && fresh(scheduler) && !scheduler.cancelled
        && scheduler.pollTimeInterval == scanItems[0].sampleTimeInterval
      ensures old(scheduler) != null && |scanItems| > 0 ==>
        scheduler == old(scheduler) && scheduler.cancelled == old(scheduler.cancelled)
        && scheduler.pollTimeInterval == ReduceMin(ReduceSeed, Intervals(scanItems))
      ensures old(scheduler) != null && |scanItems| == 0 ==> scheduler == null && old(scheduler).cancelled
    {
      if scheduler == null {
        scheduler := new Scheduler(scanItems[0].sampleTimeInterval);
      } else if |scanItems| > 0 {
        var minimumInterval := ReduceMin(ReduceSeed, Intervals(scanItems));
        if scheduler.pollTimeInterval != minimumInterval {
          scheduler.pollTimeInterval := minimumInterval;
        }
      } else {
        scheduler.Cancel();
        scheduler := null;
      }
    }

    /** `addScanItem`: append a new item, due now, with the interval floored
        at the minimum; duplicate ports are allowed. */
    method AddScanItem(portLabel: LabelArgument, sampleTimeInterval: Time, now: Time)
      requires Valid()
      modifies this, scheduler
      ensures Valid()
      ensures |scanItems| == |old(scanItems)| + 1 && scanItems[..|old(scanItems)|] == old(scanItems)
      ensures var item := scanItems[|old(scanItems)|];
        fresh(item) && item.wrappedPortLabel == Erase(portLabel)
        && item.sampleTimeInterval == StoredInterval(sampleTimeInterval) && item.nextTimeInterval == now
      ensures old(scheduler) == null ==>
        fresh(scheduler) && scheduler.pollTimeInterval == StoredInterval(sampleTimeInterval)
      ensures old(scheduler) != null ==>
        scheduler == old(scheduler) && scheduler.pollTimeInterval == ReduceMin(ReduceSeed, Intervals(scanItems))
    {
      var scanItem := new ScanItem(portLabel, StoredInterval(sampleTimeInterval), now);
      scanItems := scanItems + [scanItem];
      SetupAdaptOrRemoveScheduler();
    }

    /** `removeScanItem`: remove the first item whose label is `==` to the
        erased argument and adapt the scheduler; when nothing matches,
        neither the list nor the scheduler changes. */
    method RemoveScanItem(portLabel: LabelArgument)
      requires Valid()
      modifies this, scheduler
      ensures Valid()
      ensures scanItems == RemoveFirst(old(scanItems), Erase(portLabel))
      ensures scheduler == old(scheduler) || scheduler == null
      ensures FirstMatch(old(scanItems), Erase(portLabel)).None? ==>
        scheduler == old(scheduler)
        && (scheduler != null ==> scheduler.pollTimeInterval == old(scheduler.pollTimeInterval))
      ensures FirstMatch(old(scanItems), Erase(portLabel)).Some? && |scanItems| > 0 ==>
        scheduler.pollTimeInterval == ReduceMin(ReduceSeed, Intervals(scanItems))
      ensures |scanItems| == 0 && old(scheduler) != null ==> old(scheduler).cancelled
    {
      var wrappedPortLabel := Erase(portLabel);
      var toBeRemovedIndex := FirstMatch(scanItems, wrappedPortLabel);
      if toBeRemovedIndex.Some? {
        var i := toBeRemovedIndex.value;
        ghost var before := scanItems;
        scanItems := scanItems[..i] + scanItems[i + 1..];
        assert forall j :: 0 <= j < |scanItems| ==> scanItems[j] == before[if j < i then j else j + 1];
        SetupAdaptOrRemoveScheduler();
      }
    }

    /** One item of the repeating job: when it is due at t it is evaluated,
        with outcome `result`, and removed by its label when that throws. */
    method ScanOne(item: ScanItem, t: Time, result: Outcome) returns (due: bool)
      requires Valid() && item.sampleTimeInterval > 0
      modifies this, scheduler, item
      ensures Valid()
      ensures scheduler == old(scheduler) || scheduler == null
      ensures due == (old(item.nextTimeInterval) <= t)
      ensures item.nextTimeInterval == Advanced(old(item.nextTimeInterval), item.sampleTimeInterval, t, result)
      ensures scanItems == if due && result.Fail? then RemoveFirst(old(scanItems), item.wrappedPortLabel) else old(scanItems)
    {
      due := item.nextTimeInterval <= t;
      if due {
        var outcome := item.Evaluate(t, result);
        if outcome.Fail? {
          RemoveScanItem(Erased(item.wrappedPortLabel));
        }
      }
    }

    /** How far the repeating job has got after the first k items of the
        snapshot: the list is the snapshot without the labels that failed
        so far, the evaluated items are the due ones among the first k, the
        first k items have advanced and the others are untouched. */
    predicate JobProgress(snapshot: seq<ScanItem>, nexts: seq<Time>, t: Time, results: nat -> Outcome, k: nat,
                          failed: seq<AnyGrovePiPortLabel>, evaluated: seq<ScanItem>)
      reads this, snapshot
    {
      |nexts| == |snapshot| && k <= |snapshot|
      && (forall i, j :: 0 <= i < j < |snapshot| ==> snapshot[i] != snapshot[j])
      && (forall j :: 0 <= j < |snapshot| ==> snapshot[j].sampleTimeInterval > 0)
      && scanItems == RemoveEach(snapshot, failed)
      && failed == FailedLabels(snapshot[..k], nexts[..k], t, results)
      && evaluated == Due(snapshot[..k], nexts[..k], t)
      && (forall j :: k <= j < |snapshot| ==> snapshot[j].nextTimeInterval == nexts[j])
      && (forall j :: 0 <= j < k ==>
            snapshot[j].nextTimeInterval == Advanced(nexts[j], snapshot[j].sampleTimeInterval, t, results(j)))
    }

    /** One turn of the repeating job's loop: item k of the snapshot. */
    method JobIteration(snapshot: seq<ScanItem>, ghost nexts: seq<Time>, t: Time, results: nat -> Outcome, k: nat,
                        ghost failed: seq<AnyGrovePiPortLabel>, evaluated: seq<ScanItem>)
      returns (evaluatedNow: seq<ScanItem>, ghost failedNow: seq<AnyGrovePiPortLabel>)
      requires Valid() && k < |snapshot| && JobProgress(snapshot, nexts, t, results, k, failed, evaluated)
      modifies this, scheduler, snapshot[k]
      ensures Valid() && (scheduler == old(scheduler) || scheduler == null)
      ensures JobProgress(snapshot, nexts, t, results, k + 1, failedNow, evaluatedNow)
    {
      var item := snapshot[k];
      ghost var before := scanItems;
      var due := ScanOne(item, t, results(k));
      JobStep(snapshot, nexts, t, results, k, failed, before, scanItems);
      evaluatedNow := evaluated + (if due then [item] else []);
      failedNow := failed + (if nexts[k] <= t && results(k).Fail? then [item.wrappedPortLabel] else []);
    }

    /** The repeating job at time t over a snapshot of the list: each item
        due at t is evaluated (`results(i)` is the outcome of item i's
        evaluation), and each item whose evaluation throws is removed by
        its label. Items not due are neither evaluated nor changed. */
    method RepeatingJob(t: Time, results: nat -> Outcome) returns (evaluated: seq<ScanItem>)
      requires Valid()
      modifies this, scheduler, scanItems
      ensures Valid()
      ensures evaluated == Due(old(scanItems), old(Nexts(scanItems)), t)
      ensures scanItems == RemoveEach(old(scanItems), FailedLabels(old(scanItems), old(Nexts(scanItems)), t, results))
      ensures forall j :: 0 <= j < |old(scanItems)| ==>
        old(scanItems)[j].nextTimeInterval
        == Advanced(old(Nexts(scanItems))[j], old(scanItems)[j].sampleTimeInterval, t, results(j))
    {
      var snapshot := scanItems;
      ghost var nexts := Nexts(snapshot);
      ghost var failed: seq<AnyGrovePiPortLabel> := [];
      evaluated := [];
      assert snapshot[..0] == [] && nexts[..0] == [];
      var k := 0;
      while k < |snapshot|
        invariant 0 <= k <= |snapshot|
        invariant Valid() && (scheduler == old(scheduler) || scheduler == null)
        invariant JobProgress(snapshot, nexts, t, results, k, failed, evaluated)
      {
        evaluated, failed := JobIteration(snapshot, nexts, t, results, k, failed, evaluated);
        k := k + 1;
      }
      assert snapshot[..k] == snapshot && nexts[..k] == nexts;
    }
  }
}
