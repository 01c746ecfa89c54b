/** The sequence operations behind Python's `list.remove`: find the first
    position holding a value, and delete the value at that position. */
module Seqs {

  /** The first position of `x` in `s`: it holds `x` and no earlier one does. */
  function IndexOf<T(==)>(s: seq<T>, x: T): (i: nat)
    requires x in s
    ensures i < |s| && s[i] == x
    ensures forall j :: 0 <= j < i ==> s[j] != x
  {
    if s[0] == x then 0 else 1 + IndexOf(s[1..], x)
  }

  /** `s.remove(x)` on a list that holds `x`: exactly the first occurrence is
      cut out and the elements before and after it keep their order. */
  function RemoveFirst<T(==)>(s: seq<T>, x: T): (r: seq<T>)
    requires x in s
    ensures r == s[..IndexOf(s, x)] + s[IndexOf(s, x) + 1..]
  {
    if s[0] == x then s[1..] else [s[0]] + RemoveFirst(s[1..], x)
  }

  /** Removing `x` takes exactly one copy of `x` out of the elements. */
  lemma RemoveFirstMultiset<T>(s: seq<T>, x: T)
    requires x in s
    ensures |RemoveFirst(s, x)| == |s| - 1
    ensures multiset(RemoveFirst(s, x)) == multiset(s) - multiset{x}
  {
    var i := IndexOf(s, x);
    var before, after := s[..i], s[i + 1..];
    assert s == before + [x] + after;
    assert RemoveFirst(s, x) == before + after;
    calc {
      multiset(s);
      multiset(before + [x] + after);
      multiset(before) + multiset{x} + multiset(after);
    }
  }

  /** Appending `x` keeps the first position of an `x` that was already there. */
  lemma IndexOfAppend<T>(s: seq<T>, x: T)
    ensures x in s + [x]
    ensures IndexOf(s + [x], x) == if x in s then IndexOf(s, x) else |s|
  {
    assert (s + [x])[|s|] == x;
    assert forall j :: 0 <= j < |s| ==> (s + [x])[j] == s[j];
    if x in s {
      var i := IndexOf(s, x);
      assert (s + [x])[i] == x;
    }
  }

  /** Appending `x` and then removing the first `x` gives back the same
      elements, in the same order when `x` was not there before; otherwise
      the first `x` has moved to the end. */
  lemma AppendThenRemoveFirst<T>(s: seq<T>, x: T)
    ensures x in s + [x]
    ensures multiset(RemoveFirst(s + [x], x)) == multiset(s)
    ensures x !in s ==> RemoveFirst(s + [x], x) == s
    ensures x in s ==> RemoveFirst(s + [x], x) == RemoveFirst(s, x) + [x]
  {
    IndexOfAppend(s, x);
    RemoveFirstMultiset(s + [x], x);
    if x in s {
      AppendThenRemoveFirstPresent(s, x);
    } else {
      AppendThenRemoveFirstAbsent(s, x);
    }
  }

  lemma AppendThenRemoveFirstPresent<T>(s: seq<T>, x: T)
    requires x in s
    ensures x in s + [x]
    ensures RemoveFirst(s + [x], x) == RemoveFirst(s, x) + [x]
  {
    IndexOfAppend(s, x);
    var t, i := s + [x], IndexOf(s, x);
    calc {
      RemoveFirst(t, x);
      t[..i] + t[i + 1..];
      { assert t[..i] == s[..i]; assert t[i + 1..] == s[i + 1..] + [x]; }
      s[..i] + (s[i + 1..] + [x]);
      RemoveFirst(s, x) + [x];
    }
  }

  lemma AppendThenRemoveFirstAbsent<T>(s: seq<T>, x: T)
    requires x !in s
    ensures x in s + [x]
    ensures RemoveFirst(s + [x], x) == s
  {
    IndexOfAppend(s, x);
    var t := s + [x];
    assert t[..|s|] == s;
    assert t[|s| + 1..] == [];
  }

  /** When `x` was not in `s`, no copy of it survives appending it to `s` and
      removing it again. */
  lemma AppendThenRemoveFirstLeavesNone<T>(s: seq<T>, x: T)
    requires x !in s
    ensures x in s + [x]
    ensures x !in RemoveFirst(s + [x], x)
  {
    AppendThenRemoveFirst(s, x);
  }
}
