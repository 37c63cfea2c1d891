/** The after-hook on `LocationManager.getProviders` and
    `getAllProviders`: it drops, in place, every provider name that is not
    one of the four standard ones. */
module ProviderCleaner {
  import opened JavaValues

  /** The provider names that survive the cleaner. */
  const StandardProviders: seq<string> := ["gps", "network", "passive", "fused"]

  /** The standard entries of a provider list, in their original order. */
  function Standard(s: seq<string>): (r: seq<string>)
    ensures |r| <= |s|
  {
    if s == [] then []
    else (if s[0] in StandardProviders then [s[0]] else []) + Standard(s[1..])
  }

  /** A name survives the cleaner exactly when it is in the list and is
      one of the four standard providers. */
  lemma {:induction false} StandardMembers(s: seq<string>, x: string)
    ensures x in Standard(s) <==> x in s && x in StandardProviders
  {
    if s != [] {
      StandardMembers(s[1..], x);
      assert s == [s[0]] + s[1..];
    }
  }

  /** A mutable `java.util.List<String>`, shared by reference with whoever
      returned it. */
  class StringList {
    var elems: seq<string>

    constructor (elems: seq<string>)
      ensures this.elems == elems
    {
      this.elems := elems;
    }

    /** `List.size`. */
    function Size(): nat
      reads this
    {
      |elems|
    }

    /** `List.get`. */
    function Get(i: nat): string
      reads this
      requires i < |elems|
    {
      elems[i]
    }

    /** `List.remove(int)`: the element at `i` goes, the later ones move down. */
    method RemoveAt(i: nat)
      requires i < |elems|
      modifies this
      ensures elems == old(elems[..i] + elems[i + 1..])
    {
      elems := elems[..i] + elems[i + 1..];
    }
  }

  /** The cleaner: walks the list from the back and removes each entry that
      is not standard, so that a removal never shifts an entry it has still
      to look at. A `null` list is left alone. */
  method CleanProviders(providers: StringList?)
    modifies providers
    ensures providers != null ==> providers.elems == Standard(old(providers.elems))
  {
    if providers == null { return; }
    ghost var original := providers.elems;
    var i: int := providers.Size() - 1;
    while i >= 0
      invariant -1 <= i < |original|
      invariant providers.elems == original[..i + 1] + Standard(original[i + 1..])
    {
      var name := providers.Get(i);
      StepReads(original, i, providers.elems);
      if name !in StandardProviders {
        StepRemoves(original, i, providers.elems);
        providers.RemoveAt(i);
      } else {
        StepKeeps(original, i);
      }
      i := i - 1;
    }
    LoopDone(original);
  }

  /** When the loop ends nothing is left untouched: the list is the
      cleaned original. */
  lemma LoopDone(original: seq<string>)
    ensures original[..0] + Standard(original[0..]) == Standard(original)
  {
    assert original[0..] == original;
  }

  /** In the middle of the loop, position `i` still holds its original entry. */
  lemma StepReads(original: seq<string>, i: nat, elems: seq<string>)
    requires i < |original|
    requires elems == original[..i + 1] + Standard(original[i + 1..])
    ensures elems[i] == original[i]
  {
  }

  /** A standard entry at `i` is kept: the list already is the prefix
      before `i` followed by the cleaned rest from `i` on. */
  lemma StepKeeps(original: seq<string>, i: nat)
    requires i < |original| && original[i] in StandardProviders
    ensures original[..i + 1] + Standard(original[i + 1..]) == original[..i] + Standard(original[i..])
  {
    assert original[i..][1..] == original[i + 1..];
    assert original[..i + 1] == original[..i] + [original[i]];
  }

  /** A non-standard entry at `i` is removed: what remains is the prefix
      before `i` followed by the cleaned rest from `i` on. */
  lemma StepRemoves(original: seq<string>, i: nat, elems: seq<string>)
    requires i < |original| && original[i] !in StandardProviders
    requires elems == original[..i + 1] + Standard(original[i + 1..])
    ensures elems[..i] + elems[i + 1..] == original[..i] + Standard(original[i..])
  {
    assert original[i..][1..] == original[i + 1..];
    assert elems[..i] == original[..i];
    assert elems[i + 1..] == Standard(original[i + 1..]);
  }

  /** Cleaning a concatenation cleans each part: the order of the entries
      that stay is the original order. */
  lemma {:induction false} StandardAppend(a: seq<string>, b: seq<string>)
    ensures Standard(a + b) == Standard(a) + Standard(b)
  {
    if a == [] {
      assert a + b == b;
    } else {
      var head := if a[0] in StandardProviders then [a[0]] else [];
      assert (a + b)[0] == a[0];
      assert (a + b)[1..] == a[1..] + b;
      assert Standard(a + b) == head + Standard(a[1..] + b);
      StandardAppend(a[1..], b);
      assert head + (Standard(a[1..]) + Standard(b)) == (head + Standard(a[1..])) + Standard(b);
    }
  }

  /** The cleaned list is a subsequence of the original one. */
  lemma {:induction false} StandardSubsequence(s: seq<string>)
    ensures Subsequence(Standard(s), s)
  {
    if s != [] {
      StandardSubsequence(s[1..]);
      assert s == [s[0]] + s[1..];
      if s[0] !in StandardProviders {
        SubsequenceCons(Standard(s[1..]), s[0], s[1..]);
        assert Standard(s) == Standard(s[1..]);
      }
    }
  }

  /** No entry is dropped twice and no standard entry is lost: each
      standard name occurs as often as before, every other name not at all. */
  lemma {:induction false} StandardCounts(s: seq<string>, x: string)
    ensures multiset(Standard(s))[x] == if x in StandardProviders then multiset(s)[x] else 0
  {
    if s != [] {
      StandardCounts(s[1..], x);
      assert s == [s[0]] + s[1..];
    }
  }

  /** A list of standard names only is left unchanged. */
  lemma {:induction false} StandardOfStandardOnly(s: seq<string>)
    requires forall i :: 0 <= i < |s| ==> s[i] in StandardProviders
    ensures Standard(s) == s
  {
    if s != [] {
      StandardOfStandardOnly(s[1..]);
    }
  }

  /** Cleaning twice is cleaning once. */
  lemma StandardIdempotent(s: seq<string>)
    ensures Standard(Standard(s)) == Standard(s)
  {
    var r := Standard(s);
    forall i | 0 <= i < |r| ensures r[i] in StandardProviders {
      StandardMembers(s, r[i]);
    }
    StandardOfStandardOnly(r);
  }

  /** A test provider between standard ones is dropped, the rest stay in order. */
  lemma StandardExample()
    ensures Standard(["gps", "network", "test", "passive"]) == ["gps", "network", "passive"]
  {
  }
}
