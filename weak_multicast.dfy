/** The multicast list of the utilities, which holds its delegates through
    weak references. A reference whose object has been deallocated reads
    as `None`; delegates are compared by identity. */
module WeakMulticast {
  import opened Common

  /** The live entries of s, in order. */
  function Live<T>(s: seq<Option<T>>): (r: seq<Option<T>>)
    ensures |r| <= |s|
  {
    if |s| == 0 then []
    else (if s[0].None? then [] else [s[0]]) + Live(s[1..])
  }

  /** The live entries of s that do not refer to d, in order. */
  function LiveWithout<T(==)>(s: seq<Option<T>>, d: T): (r: seq<Option<T>>)
    ensures |r| <= |s|
  {
    if |s| == 0 then []
    else (if s[0].None? || s[0] == Some(d) then [] else [s[0]]) + LiveWithout(s[1..], d)
  }

  /** The objects of the live entries, last entry first. */
  function LiveReversed<T>(s: seq<Option<T>>): (r: seq<T>)
    ensures |r| <= |s|
  {
    if |s| == 0 then []
    else LiveReversed(s[1..]) + (if s[0].None? then [] else [s[0].value])
  }

  /** One step of the walk from the end: the entry at i is in front of the
      rest. */
  lemma LiveStep<T>(s: seq<Option<T>>, i: nat)
    requires i < |s|
    ensures Live(s[i..]) == (if s[i].None? then [] else [s[i]]) + Live(s[i + 1..])
    ensures LiveReversed(s[i..]) == LiveReversed(s[i + 1..]) + (if s[i].None? then [] else [s[i].value])
  {
    assert s[i..][0] == s[i] && s[i..][1..] == s[i + 1..];
  }

  class WeakMulticastDelegate<T(==), DT> {
    var weakDelegates: seq<Option<T>>

    constructor()
      ensures weakDelegates == []
    {
      weakDelegates := [];
    }

    /** `addDelegate`: append a weak reference to the delegate. */
    method AddDelegate(d: T)
      modifies this
      ensures weakDelegates == old(weakDelegates) + [Some(d)]
    {
      weakDelegates := weakDelegates + [Some(d)];
    }

    /** `removeDelegate`: walk the original list from its last index to its
        first, removing every entry whose object is gone and every entry
        that refers to d itself. */
    method RemoveDelegate(d: T)
      modifies this
      ensures weakDelegates == LiveWithout(old(weakDelegates), d)
    {
      var original := weakDelegates;
      var i := |original|;
      assert original[i..] == [];
      while i > 0
        invariant 0 <= i <= |original|
        invariant weakDelegates == original[..i] + LiveWithout(original[i..], d)
      {
        i := i - 1;
        assert original[i..][0] == original[i] && original[i..][1..] == original[i + 1..];
        assert weakDelegates[..i] == original[..i] && weakDelegates[i] == original[i];
        if original[i].None? {
          weakDelegates := weakDelegates[..i] + weakDelegates[i + 1..];
        } else if original[i].value == d {
          weakDelegates := weakDelegates[..i] + weakDelegates[i + 1..];
        }
        assert original[..i + 1] == original[..i] + [original[i]];
      }
      assert original[..0] == [] && original[0..] == original;
    }

    /** `invoke`: walk the original list from its last index to its first;
        an entry whose object is gone is removed, every other one receives
        the invocation with the parameter. `receivers` lists the delegates
        called, in the order of the calls. */
    method Invoke(parameter: DT) returns (receivers: seq<T>)
      modifies this
      ensures weakDelegates == Live(old(weakDelegates))
      ensures receivers == LiveReversed(old(weakDelegates))
    {
      var original := weakDelegates;
      var i := |original|;
      receivers := [];
      assert original[i..] == [];
      while i > 0
        invariant 0 <= i <= |original|
        invariant weakDelegates == original[..i] + Live(original[i..])
        invariant receivers == LiveReversed(original[i..])
      {
        i := i - 1;
        LiveStep(original, i);
        var kept := Live(original[i + 1..]);
        assert original[..i + 1] == original[..i] + [original[i]];
        assert weakDelegates == original[..i] + [original[i]] + kept;
        if original[i].None? {
          weakDelegates := weakDelegates[..i] + weakDelegates[i + 1..];
          assert weakDelegates == original[..i] + kept;
        } else {
          receivers := receivers + [original[i].value];
        }
      }
      assert original[..0] == [] && original[0..] == original;
    }

    /** The delegate object is deallocated: every weak reference to it now
        reads as `None`. This is not an operation of the list; it stands for
        the reference counting that happens outside it. */
    method ObjectDeallocated(d: T)
      modifies this
      ensures |weakDelegates| == |old(weakDelegates)|
      ensures forall i :: 0 <= i < |weakDelegates| ==>
        weakDelegates[i] == if old(weakDelegates)[i] == Some(d) then None else old(weakDelegates)[i]
    {
      var entries := weakDelegates;
      weakDelegates := seq(|entries|, i requires 0 <= i < |entries| =>
        if entries[i] == Some(d) then None else entries[i]);
    }
  }

  /** Pruning keeps exactly the live entries: no dead entry remains and
      every live one does. */
  lemma {:induction false} LiveKeepsExactlyLive<T>(s: seq<Option<T>>)
    ensures None !in Live(s)
    ensures forall i :: 0 <= i < |Live(s)| ==> Live(s)[i] in s
    ensures forall i :: 0 <= i < |s| && s[i].Some? ==> s[i] in Live(s)
  {
    if |s| > 0 {
      LiveKeepsExactlyLive(s[1..]);
      assert s == [s[0]] + s[1..];
      forall i | 0 <= i < |s| && s[i].Some? ensures s[i] in Live(s) {
        if i > 0 {
          assert s[i] == s[1..][i - 1];
        }
      }
    }
  }

  /** Removal takes out the dead entries and every reference to d, and keeps
      every other live entry. */
  lemma {:induction false} LiveWithoutKeepsOthers<T>(s: seq<Option<T>>, d: T)
    ensures None !in LiveWithout(s, d) && Some(d) !in LiveWithout(s, d)
    ensures forall i :: 0 <= i < |LiveWithout(s, d)| ==> LiveWithout(s, d)[i] in s
    ensures forall i :: 0 <= i < |s| && s[i].Some? && s[i] != Some(d) ==> s[i] in LiveWithout(s, d)
  {
    if |s| > 0 {
      LiveWithoutKeepsOthers(s[1..], d);
      assert s == [s[0]] + s[1..];
      forall i | 0 <= i < |s| && s[i].Some? && s[i] != Some(d) ensures s[i] in LiveWithout(s, d) {
        if i > 0 {
          assert s[i] == s[1..][i - 1];
        }
      }
    }
  }

  /** After an invocation only live entries remain, so a second invocation
      calls the same delegates and changes nothing. */
  lemma {:induction false} LiveIdempotent<T>(s: seq<Option<T>>)
    ensures Live(Live(s)) == Live(s)
    ensures LiveReversed(Live(s)) == LiveReversed(s)
  {
    if |s| > 0 {
      LiveIdempotent(s[1..]);
      var r := Live(s);
      if s[0].Some? {
        assert r == [s[0]] + Live(s[1..]);
        assert r[0] == s[0] && r[1..] == Live(s[1..]);
      } else {
        assert r == Live(s[1..]);
      }
    }
  }

  /** A delegate added and then removed is neither called nor kept, while
      the other live entries stay. */
  lemma {:induction false} RemoveAfterAdd<T>(s: seq<Option<T>>, d: T)
    ensures LiveWithout(s + [Some(d)], d) == LiveWithout(s, d)
  {
    if |s| == 0 {
      assert s + [Some(d)] == [Some(d)];
      assert [Some(d)][1..] == [];
    } else {
      assert (s + [Some(d)])[0] == s[0] && (s + [Some(d)])[1..] == s[1..] + [Some(d)];
      RemoveAfterAdd(s[1..], d);
    }
  }
}
