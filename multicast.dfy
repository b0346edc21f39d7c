/** `MulticastDelegate`: an ordered list of delegates that are notified in
    turn. Delegates are compared with their own `==`, which for the erased
    delegates stored here is value equality of the model's datatypes. */
module Multicast {

  /** The entries of s that are not equal to d, in their original order. */
  function Without<D(==)>(s: seq<D>, d: D): (r: seq<D>)
    ensures |r| <= |s|
  {
    if |s| == 0 then []
    else (if s[0] == d then [] else [s[0]]) + Without(s[1..], d)
  }

  /** Removal takes out every reference to d and keeps every other entry. */
  lemma {:induction false} WithoutKeepsOthers<D>(s: seq<D>, d: D)
    ensures d !in Without(s, d)
    ensures forall i :: 0 <= i < |Without(s, d)| ==> Without(s, d)[i] in s
    ensures forall i :: 0 <= i < |s| && s[i] != d ==> s[i] in Without(s, d)
  {
    if |s| > 0 {
      WithoutKeepsOthers(s[1..], d);
      assert s == [s[0]] + s[1..];
      forall i | 0 <= i < |s| && s[i] != d ensures s[i] in Without(s, d) {
        if i > 0 {
          assert s[i] == s[1..][i - 1];
        }
      }
    }
  }

  /** Removal works piece by piece: the relative order of the kept entries
      is the order they had. */
  lemma {:induction false} WithoutAppend<D>(a: seq<D>, b: seq<D>, d: D)
    ensures Without(a + b, d) == Without(a, d) + Without(b, d)
  {
    if |a| == 0 {
      assert a + b == b;
    } else {
      assert (a + b)[0] == a[0] && (a + b)[1..] == a[1..] + b;
      WithoutAppend(a[1..], b, d);
    }
  }

  /** Removing an absent delegate changes nothing. */
  lemma {:induction false} WithoutAbsent<D>(s: seq<D>, d: D)
    requires d !in s
    ensures Without(s, d) == s
  {
    if |s| > 0 {
      assert s == [s[0]] + s[1..];
      WithoutAbsent(s[1..], d);
    }
  }

  /** Removal takes out every copy of d and nothing else. */
  lemma {:induction false} WithoutCounts<D>(s: seq<D>, d: D)
    ensures multiset(Without(s, d)) == multiset(s)[d := 0]
  {
    if |s| > 0 {
      WithoutCounts(s[1..], d);
      assert s == [s[0]] + s[1..];
    }
  }

  /** Removal from a suffix, one entry at a time. */
  lemma WithoutFrom<D>(s: seq<D>, i: nat, d: D)
    requires i < |s|
    ensures Without(s[i..], d) == (if s[i] == d then [] else [s[i]]) + Without(s[i + 1..], d)
  {
    assert s[i..][0] == s[i] && s[i..][1..] == s[i + 1..];
  }

  /** One turn of the reverse walk of `removeDelegate`: entry i is dropped
      exactly when it is d, and the entries before it are still in place. */
  lemma RemoveStep<D>(original: seq<D>, i: nat, d: D, delegates: seq<D>)
    requires i < |original|
    requires delegates == original[..i + 1] + Without(original[i + 1..], d)
    ensures i < |delegates| && delegates[..i] == original[..i] && delegates[i] == original[i]
    ensures original[i] == d ==> delegates[..i] + delegates[i + 1..] == original[..i] + Without(original[i..], d)
    ensures original[i] != d ==> delegates == original[..i] + Without(original[i..], d)
  {
    var kept := Without(original[i + 1..], d);
    WithoutFrom(original, i, d);
    assert original[..i + 1] == original[..i] + [original[i]];
    assert delegates == original[..i] + ([original[i]] + kept);
    assert delegates[i + 1..] == kept;
  }

  class MulticastDelegate<D(==), IV> {
    var delegates: seq<D>

    constructor()
      ensures delegates == []
    {
      delegates := [];
    }

    /** `count`: the number of stored delegates. */
    function Count(): (n: nat)
      reads this
      ensures n == |delegates|
    {
      |delegates|
    }

    /** `addDelegate`: append at the end. */
    method AddDelegate(d: D)
      modifies this
      ensures delegates == old(delegates) + [d]
    {
      delegates := delegates + [d];
    }

    /** `removeDelegate`: walk the original list from its last index to its
        first and remove every entry equal to d. Removing at an index never
        moves the entries before it, so each index still names the entry it
        named in the original list. */
    method RemoveDelegate(d: D)
      modifies this
      ensures delegates == Without(old(delegates), d)
    {
      var original := delegates;
      var i := |original|;
      assert original[i..] == [];
      while i > 0
        invariant 0 <= i <= |original|
        invariant delegates == original[..i] + Without(original[i..], d)
      {
        i := i - 1;
        RemoveStep(original, i, d, delegates);
        if original[i] == d {
          delegates := delegates[..i] + delegates[i + 1..];
        }
      }
      assert original[..0] == [] && original[0..] == original;
    }

    /** `removeAllDelegates`. */
    method RemoveAllDelegates()
      modifies this
      ensures delegates == []
    {
      delegates := [];
    }

    /** `invoke`: the invocation is made with the parameter once for every
        entry, in insertion order. `receivers` lists the delegates called, in
        the order of the calls; the list itself is not changed. */
    method Invoke(parameter: IV) returns (receivers: seq<D>)
      ensures receivers == delegates
    {
      receivers := [];
      for i := 0 to |delegates|
        invariant receivers == delegates[..i]
      {
        receivers := receivers + [delegates[i]];
        assert delegates[..i + 1] == delegates[..i] + [delegates[i]];
      }
      assert delegates[..|delegates|] == delegates;
    }
  }

  /** The add/remove pair: adding a delegate that was absent and removing it
      again restores the list. */
  lemma AddThenRemoveRestores<D>(s: seq<D>, d: D)
    requires d !in s
    ensures Without(s + [d], d) == s
  {
    WithoutAppend(s, [d], d);
    WithoutAbsent(s, d);
    assert Without([d], d) == [] by {
      assert [d][1..] == [];
    }
  }
}
