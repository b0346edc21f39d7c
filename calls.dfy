/** A sequence of throwing bus calls made one after the other, each with
    `try`: the first call that throws ends the sequence and its error is the
    sequence's error. Which calls fail is a parameter: `calls(i)` is the
    outcome of the call at position i. */
module Calls {
  import opened Common

  /** The outcome of each call of a sequence, by its position. */
  type CallOutcomes = nat -> Outcome

  /** The position of the first failing call among the first n, or n when
      none of them fails. */
  function FirstFailure(n: nat, calls: CallOutcomes): (k: nat)
    ensures k <= n
    ensures forall i :: 0 <= i < k ==> calls(i).Pass?
    ensures k < n ==> calls(k).Fail?
  {
    if n == 0 then 0
    else
      var k := FirstFailure(n - 1, calls);
      if k < n - 1 then k
      else if calls(n - 1).Fail? then n - 1
      else n
  }

  /** The calls that are made: every call up to and including the first
      that fails, or all of them. */
  function Sent(ops: seq<BusOp>, calls: CallOutcomes): (sent: seq<BusOp>)
    ensures sent <= ops
    ensures forall i :: 0 <= i < |sent| - 1 ==> calls(i).Pass?
    ensures |sent| < |ops| ==> 0 < |sent| && calls(|sent| - 1).Fail?
    ensures sent == ops <==> forall i :: 0 <= i < |ops| - 1 ==> calls(i).Pass?
  {
    var k := FirstFailure(|ops|, calls);
    if k < |ops| then ops[..k + 1] else ops
  }

  /** The outcome of the sequence followed by a final check whose outcome
      is `last`: the error of the first failing call, else `last`. */
  function SequenceOutcome(ops: seq<BusOp>, calls: CallOutcomes, last: Outcome): (outcome: Outcome)
    ensures outcome.Pass? <==> last.Pass? && forall i :: 0 <= i < |ops| ==> calls(i).Pass?
    ensures (forall i :: 0 <= i < |ops| ==> calls(i).Pass?) ==> outcome == last
    ensures (exists i :: 0 <= i < |ops| && calls(i).Fail?) ==>
      0 < |Sent(ops, calls)| && outcome == calls(|Sent(ops, calls)| - 1)
  {
    var k := FirstFailure(|ops|, calls);
    if k < |ops| then calls(k) else last
  }

  /** Makes the calls in order and stops at the first one that fails; the
      final check is made only when every call passed. */
  method PerformCalls(ops: seq<BusOp>, calls: CallOutcomes, last: Outcome) returns (sent: seq<BusOp>, outcome: Outcome)
    ensures sent == Sent(ops, calls)
    ensures outcome == SequenceOutcome(ops, calls, last)
  {
    sent := [];
    var i := 0;
    while i < |ops|
      invariant 0 <= i <= |ops|
      invariant sent == ops[..i]
      invariant forall j :: 0 <= j < i ==> calls(j).Pass?
    {
      sent := sent + [ops[i]];
      if calls(i).Fail? {
        assert FirstFailure(|ops|, calls) == i;
        assert sent == ops[..i + 1];
        return sent, calls(i);
      }
      i := i + 1;
    }
    assert sent == ops;
    outcome := last;
  }

  /** Two sequences made one after the other: a failure in the first ends
      the whole before any call of the second. */
  lemma {:induction false} FailureInFirstPart(a: seq<BusOp>, b: seq<BusOp>, calls: CallOutcomes, last: Outcome, i: nat)
    requires i < |a| && calls(i).Fail?
    ensures |Sent(a + b, calls)| <= |a|
    ensures Sent(a + b, calls) == Sent(a, calls)
    ensures SequenceOutcome(a + b, calls, last) == SequenceOutcome(a, calls, last)
  {
    var k := FirstFailure(|a + b|, calls);
    var j := FirstFailure(|a|, calls);
    assert k <= i && j <= i;
    assert k == j;
    assert (a + b)[..k + 1] == a[..k + 1];
  }
}
