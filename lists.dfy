/** The two `List<T>` operations the boid applies to its neighbour lists:
    `Add`, which is `s + [x]`, and `Remove`, which deletes only the first
    occurrence of its argument and leaves the list alone when it is absent. */
module Lists {

  /** `List<T>.IndexOf(x)`: the position of the first `x`. */
  function FirstIndex<T(==)>(s: seq<T>, x: T): (i: nat)
    requires x in s
    ensures i < |s| && s[i] == x
    ensures x !in s[..i]
  {
    if s[0] == x then 0
    else
      assert s == [s[0]] + s[1..];
      1 + FirstIndex(s[1..], x)
  }

  /** The first occurrence is the only position holding `x` with no `x`
      before it. */
  lemma FirstIndexUnique<T>(s: seq<T>, x: T, i: nat)
    requires i < |s| && s[i] == x && x !in s[..i]
    ensures FirstIndex(s, x) == i
  {}

  lemma SliceAround<T>(s: seq<T>, i: nat)
    requires i < |s|
    ensures s == s[..i] + [s[i]] + s[i + 1..]
  {}

  /** `List<T>.Remove(x)`: finds the first `x` and removes the element at
      that position; the list is unchanged when `x` is not in it. */
  function RemoveFirst<T(==)>(s: seq<T>, x: T): (r: seq<T>)
    ensures x !in s ==> r == s
    ensures x in s ==> |r| == |s| - 1
    ensures multiset(r) == multiset(s) - multiset{x}
    ensures x in s ==> exists i :: 0 <= i < |s| && s[i] == x && x !in s[..i] && r == s[..i] + s[i + 1..]
  {
    if x in s then
      var i := FirstIndex(s, x);
      SliceAround(s, i);
      assert multiset(s) == multiset(s[..i]) + multiset{x} + multiset(s[i + 1..]);
      s[..i] + s[i + 1..]
    else
      assert multiset(s)[x] == 0;
      s
  }

  /** Removal never introduces an element. */
  lemma RemoveFirstKeeps<T>(s: seq<T>, x: T)
    ensures forall y :: y in RemoveFirst(s, x) ==> y in s
  {
    forall y | y in RemoveFirst(s, x) ensures y in s {
      assert multiset(RemoveFirst(s, x))[y] > 0;
    }
  }

  /** Adding and then removing the same element: an element that was absent
      is gone again and the list is as before; one that was present loses its
      EARLIER copy, so the list keeps its contents but the element moves to
      the end. Either way the multiset of the list is restored. */
  lemma AppendThenRemoveFirst<T>(s: seq<T>, x: T)
    ensures x !in s ==> RemoveFirst(s + [x], x) == s
    ensures x in s ==> RemoveFirst(s + [x], x) == RemoveFirst(s, x) + [x]
    ensures multiset(RemoveFirst(s + [x], x)) == multiset(s)
  {
    assert multiset(s + [x]) == multiset(s) + multiset{x};
    if x in s {
      AppendPresent(s, x);
    } else {
      AppendAbsent(s, x);
    }
  }

  lemma AppendPresent<T>(s: seq<T>, x: T)
    requires x in s
    ensures RemoveFirst(s + [x], x) == RemoveFirst(s, x) + [x]
  {
    var t := s + [x];
    var i := FirstIndex(s, x);
    assert t[..i] == s[..i];
    FirstIndexUnique(t, x, i);
    assert t[i + 1..] == s[i + 1..] + [x];
  }

  lemma AppendAbsent<T>(s: seq<T>, x: T)
    requires x !in s
    ensures RemoveFirst(s + [x], x) == s
  {
    var t := s + [x];
    assert t[..|s|] == s;
    FirstIndexUnique(t, x, |s|);
  }
}
